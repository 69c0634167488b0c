/** The ACKs of the sender outside ESTABLISHED: in CLOSE_WAIT and the FIN_WAIT states ReceivedAck is called for every ACK
    number, without the range test of ProcessEstablished. */
module SenderWait {
  import opened TcpTypes
  import opened Sender
  import opened SenderInvariants
  import Swift
  import H = RttHistory

  /** DiscardUpTo for any number: nothing below SND.UNA is there to discard, and past the end all is. */
  function TrimmedAt(c: Config, s: Socket, ack: nat, a: AckAnswers): Socket {
    var r := Trimmed(c, s, Max(s.tx.head, ack), a);
    r.(tx := r.tx.(tail := Max(r.tx.tail, ack)))
  }

  /** ReceivedAck up to the sending, for any number; a SACK block says something new only of bytes outstanding. */
  function TakeAnyAck(c: Config, s: Socket, h: Header, a: AckAnswers): Socket {
    var s1 := EcnEcho(TrimmedAt(c, s, h.ack, a), h.ack, s.tx.head, h.ece);
    var isDupack := IsDupack(c, s1, h.ack, s.tx.head, a.sackUpdated) && s1.tx.head < s1.tcb.highTx;
    FinishAck(c, NoteAck(c, s1, h.ack, isDupack, a), h.ack, s.tx.head, isDupack, s1.dupAckCount, a)
  }

  predicate Ordered(s: Socket) {
    s.tx.head <= s.tcb.nextTx <= s.tcb.highTx
  }

  /** In those states the order SND.UNA <= SND.NXT <= high mark survives an ACK exactly when its number is not past the
      high mark. An older number moves nothing. A number past the high mark is taken up: SND.UNA and SND.NXT both move to
      it, and what was buffered below it is gone although it was never sent. */
  lemma AnyAckOrderIff(c: Config, s: Socket, first: nat, h: Header, a: AckAnswers)
    requires Inv(c, s, first) && FrontPast(s.history, h.ack)
    ensures
      var r := TakeAnyAck(c, s, h, a);
      && (Ordered(r) <==> h.ack <= s.tcb.highTx)
      && (h.ack <= s.tcb.highTx ==> r.tx.head == Max(s.tx.head, h.ack))
      && (s.tcb.highTx < h.ack ==> r.tx.head == r.tcb.nextTx == h.ack && r.tcb.highTx == s.tcb.highTx)
  {
    hide Inv, TakeAnyAck;
    InvSeq(c, s, first);
    if h.ack < s.tx.head {
      OldAckKeeps(c, s, first, h, a);
    } else if h.ack <= s.tcb.highTx {
      AckInRange(c, s, first, h, a);
    } else {
      AckPastHigh(c, s, first, h, a);
    }
  }

  lemma InvSeq(c: Config, s: Socket, first: nat)
    requires Inv(c, s, first)
    ensures SeqInv(s) && Swift.SwiftInv(s.swift) && (s.recover <= s.tcb.highTx || !InEpisode(s)) && Ordered(s)
  {
  }

  lemma OldAckKeeps(c: Config, s: Socket, first: nat, h: Header, a: AckAnswers)
    requires Inv(c, s, first) && h.ack < s.tx.head
    ensures
      var r := TakeAnyAck(c, s, h, a);
      Ordered(r) && r.tx.head == s.tx.head
  {
    hide EcnInv, WireInv, CongInv, EntryInv, NoteAck, EcnEcho;
    var s0 := TrimmedAt(c, s, h.ack, a);
    var s1 := EcnEcho(s0, h.ack, s.tx.head, h.ece);
    OldTrimmed(c, s, first, h.ack, a);
    EcnEchoShape(s0, h.ack, s.tx.head, h.ece);
    OldEcho(c, s, first, h, a);
    var isDupack := IsDupack(c, s1, h.ack, s.tx.head, a.sackUpdated) && s1.tx.head < s1.tcb.highTx;
    NoteAckKeeps(c, s1, h.ack, isDupack, a, true);
  }

  lemma OldTrimmed(c: Config, s: Socket, first: nat, ack: nat, a: AckAnswers)
    requires Inv(c, s, first) && ack < s.tx.head
    ensures
      var r := TrimmedAt(c, s, ack, a);
      MidInv(c, r, true) && r.tx.head == s.tx.head && r.tcb == s.tcb && r.ecnEchoSeq == s.ecnEchoSeq
  {
    assert WireOf(TrimmedAt(c, s, ack, a)) == WireOf(s);
  }

  lemma OldEcho(c: Config, s: Socket, first: nat, h: Header, a: AckAnswers)
    requires Inv(c, s, first) && h.ack < s.tx.head
    ensures
      var r := EcnEcho(TrimmedAt(c, s, h.ack, a), h.ack, s.tx.head, h.ece);
      MidInv(c, r, true) && r.tx.head == s.tx.head
  {
    var s0 := TrimmedAt(c, s, h.ack, a);
    OldTrimmed(c, s, first, h.ack, a);
    EcnEchoShape(s0, h.ack, s.tx.head, h.ece);
    EcnFieldsKeep(c, s0, EcnEcho(s0, h.ack, s.tx.head, h.ece), true);
  }

  lemma AckInRange(c: Config, s: Socket, first: nat, h: Header, a: AckAnswers)
    requires Inv(c, s, first) && s.tx.head <= h.ack <= s.tcb.highTx && FrontPast(s.history, h.ack)
    ensures
      var r := TakeAnyAck(c, s, h, a);
      Ordered(r) && r.tx.head == h.ack
  {
    hide EcnInv, WireInv, CongInv, EntryInv, ProcessAck, FinishAck, NoteAck, EcnEcho, AccountAt;
    var s1 := EcnEcho(Trimmed(c, s, h.ack, a), h.ack, s.tx.head, h.ece);
    SameInRange(c, s, h, a);
    DiscardKeeps(c, s, first, h, a);
    ProcessAckKeeps(c, s1, first, h.ack, s.tx.head, a);
  }

  lemma SameInRange(c: Config, s: Socket, h: Header, a: AckAnswers)
    requires SeqInv(s) && s.tx.head <= h.ack <= s.tcb.highTx
    ensures
      var s1 := EcnEcho(Trimmed(c, s, h.ack, a), h.ack, s.tx.head, h.ece);
      TakeAnyAck(c, s, h, a) == ProcessAck(c, s1, h.ack, s.tx.head, a)
  {
    hide FinishAck, NoteAck;
    assert TrimmedAt(c, s, h.ack, a) == Trimmed(c, s, h.ack, a);
    EcnEchoShape(Trimmed(c, s, h.ack, a), h.ack, s.tx.head, h.ece);
  }

  lemma AckPastHigh(c: Config, s: Socket, first: nat, h: Header, a: AckAnswers)
    requires Inv(c, s, first) && s.tcb.highTx < h.ack
    ensures
      var r := TakeAnyAck(c, s, h, a);
      r.tx.head == r.tcb.nextTx == h.ack && r.tcb.highTx == s.tcb.highTx
  {
    hide FullAck, PartialAck, LossAck;
    var s0 := TrimmedAt(c, s, h.ack, a);
    var s1 := EcnEcho(s0, h.ack, s.tx.head, h.ece);
    EcnEchoShape(s0, h.ack, s.tx.head, h.ece);
    var s2 := s1.(tcb := s1.tcb.(lastAcked := h.ack));
    var bytes := h.ack - s.tx.head;
    FullAckMarks(c, Credited(s2, bytes, false), h.ack, SegmentsAcked(s2, bytes), false, s1.dupAckCount, a);
  }

  /** The marks after a full ACK. */
  lemma FullAckMarks(c: Config, s: Socket, ack: nat, segments: nat, isDupack: bool, oldDupAcks: nat, a: AckAnswers)
    requires Swift.SwiftInv(s.swift)
    ensures
      var r := FullAck(c, s, ack, segments, isDupack, oldDupAcks, a);
      r.tx == s.tx && r.tcb.nextTx == Max(s.tcb.nextTx, ack) && r.tcb.highTx == s.tcb.highTx
  {
    hide LeaveCongestion, IncreaseWindow, Swift.SwiftInv;
    var s1 := LeaveCongestion(s, segments, isDupack, oldDupAcks);
    LeaveCongestionShape(s, segments, isDupack, oldDupAcks);
    IncreaseWindowQuiet(c, s1.(recoverActive := s1.recoverActive && ack < s1.recover), a.growth);
  }
}
