/** Swift's cycles inside the sender: where an ACK leaves their edge and their count of samples. */
module SenderCycles {
  import opened TcpTypes
  import opened Sender
  import opened SenderInvariants
  import opened SenderMachine
  import opened SenderEffects
  import Swift

  lemma {:induction false} SendLoopSwift(c: Config, s: Socket, offers: nat -> Offer, turn: nat)
    ensures SendLoop(c, s, offers, turn).swift == s.swift
    decreases AvailableWindow(s)
  {
    hide Choose;
    var chosen := Choose(c, s, offers(turn));
    if chosen.Some? {
      SendChosenInFlight(c, s, offers(turn));
      SendLoopSwift(c, SendChosen(s, chosen.value, offers(turn).reduced), offers, turn + 1);
    }
  }

  /** What the cycles depend on. */
  ghost predicate SameCycle(s: Socket, r: Socket) {
    && r.swift == s.swift && r.tcb.nextTx == s.tcb.nextTx && r.tcb.lastRtt == s.tcb.lastRtt
    && r.tcb.cong == s.tcb.cong && r.recover == s.recover
  }

  lemma NoteCycle(c: Config, s: Socket, ack: nat, isDupack: bool, a: AckAnswers)
    requires isDupack ==> InEpisode(s)
    ensures
      var r := NoteAck(c, s, ack, isDupack, a);
      SameCycle(s, r) && r.tcb.lastAcked == ack
  {
  }

  /** Edge and count of samples once an ACK past any recovery point was processed. */
  ghost predicate Turned(s: Socket, r: Socket, ack: nat) {
    var ends := s.tcb.cong != Open || s.swift.begSndNxt <= ack;
    && r.swift.begSndNxt == (if ends then s.tcb.nextTx else s.swift.begSndNxt)
    && r.swift.cntRtt == if ends then 0 else s.swift.cntRtt + if s.tcb.lastRtt == 0 then 0 else 1
  }

  lemma SampleTurns(s: Socket)
    ensures
      var r := PktsAcked(s);
      && r.tcb == s.tcb && r.swift.doingSwift == s.swift.doingSwift && r.swift.begSndNxt == s.swift.begSndNxt
      && r.swift.cntRtt == s.swift.cntRtt + if s.tcb.lastRtt == 0 then 0 else 1
  {
  }

  lemma OpenTurns(s: Socket)
    ensures
      var r := SetCongState(s, Open);
      && r.swift.doingSwift && r.tcb.nextTx == s.tcb.nextTx && r.tcb.lastAcked == s.tcb.lastAcked
      && r.swift.begSndNxt == s.tcb.nextTx && r.swift.cntRtt == 0
  {
  }

  lemma LeaveTurns(s: Socket, segments: nat, isDupack: bool, oldDupAcks: nat)
    requires (s.tcb.cong == Open ==> s.swift.doingSwift) && (isDupack ==> InEpisode(s))
    ensures
      var r := LeaveCongestion(s, segments, isDupack, oldDupAcks);
      && r.swift.doingSwift && r.tcb.nextTx == s.tcb.nextTx && r.tcb.lastAcked == s.tcb.lastAcked
      && r.swift.begSndNxt == (if s.tcb.cong == Open then s.swift.begSndNxt else s.tcb.nextTx)
      && r.swift.cntRtt == if s.tcb.cong == Open then s.swift.cntRtt + (if s.tcb.lastRtt == 0 then 0 else 1) else 0
  {
    hide PktsAcked, SetCongState;
    var s1 := s.(firstPartialAck := true);
    SampleTurns(s);
    SampleTurns(s1);
    OpenTurns(if s.tcb.cong == Disorder && segments < oldDupAcks then s else PktsAcked(s));
    OpenTurns(PktsAcked(s1));
  }

  lemma IncreaseTurns(c: Config, s: Socket, growth: nat)
    requires s.swift.doingSwift
    ensures
      var r := IncreaseWindow(c, s, growth);
      if s.swift.begSndNxt <= s.tcb.lastAcked then r.swift.begSndNxt == s.tcb.nextTx && r.swift.cntRtt == 0
      else r.swift.begSndNxt == s.swift.begSndNxt && r.swift.cntRtt == s.swift.cntRtt
  {
    hide Swift.AdjustedWindow, Swift.CycleTcb;
  }

  lemma FullTurns(c: Config, s: Socket, ack: nat, segments: nat, isDupack: bool, oldDupAcks: nat, a: AckAnswers)
    requires (s.tcb.cong == Open ==> s.swift.doingSwift) && s.tcb.lastAcked == ack && (isDupack ==> InEpisode(s))
    ensures Turned(s, FullAck(c, s, ack, segments, isDupack, oldDupAcks, a), ack)
  {
    hide LeaveCongestion, IncreaseWindow;
    LeaveTurns(s, segments, isDupack, oldDupAcks);
    var s1 := LeaveCongestion(s, segments, isDupack, oldDupAcks);
    IncreaseTurns(c, s1.(recoverActive := s1.recoverActive && ack < s1.recover), a.growth);
  }

  lemma ProcessTurns(c: Config, s: Socket, ack: nat, oldHead: nat, a: AckAnswers)
    requires (s.tcb.cong == Open ==> s.swift.doingSwift) && oldHead < ack
    requires IsDupack(c, s, ack, oldHead, a.sackUpdated) ==> InEpisode(s)
    requires InEpisode(s) ==> s.recover <= ack
    ensures Turned(s, ProcessAck(c, s, ack, oldHead, a), ack)
  {
    hide NoteAck, FullAck;
    var isDupack := IsDupack(c, s, ack, oldHead, a.sackUpdated);
    NoteCycle(c, s, ack, isDupack, a);
    var s1 := NoteAck(c, s, ack, isDupack, a);
    FullTurns(c, Credited(s1, ack - oldHead, isDupack), ack, SegmentsAcked(s1, ack - oldHead), isDupack, s.dupAckCount, a);
  }

  lemma TakeTurns(c: Config, s: Socket, h: Header, a: AckAnswers)
    requires (s.tcb.cong == Open ==> s.swift.doingSwift) && s.tx.head < h.ack
    requires Duplicates(c, s, h, a) ==> InEpisode(s)
    requires InEpisode(s) ==> s.recover <= h.ack
    ensures Turned(s, TakeAck(c, s, h, a), h.ack)
  {
    hide ProcessAck;
    var s1 := EcnEcho(Trimmed(c, s, h.ack, a), h.ack, s.tx.head, h.ece);
    EcnEchoShape(Trimmed(c, s, h.ack, a), h.ack, s.tx.head, h.ece);
    ProcessTurns(c, s1, h.ack, s.tx.head, a);
  }

  /** An ACK of new data that leaves the sender in OPEN, where Swift is on: the cycle goes on, with one sample more if an RTT
      is known, unless the ACK covers its edge or the state was not OPEN before; then the next one starts, without samples,
      at the SND.NXT the ACK found. */
  lemma OpenAckTurnsCycle(c: Config, s: Socket, first: nat, now: nat, h: Header, a: AckAnswers)
    requires Inv(c, s, first) && OnInOpen(MachineOf(s)) && InRange(s, h) && s.tx.head < h.ack
    ensures
      var r := Step(c, s, Segment(now, h, a));
      var starts := s.tcb.cong != Open || s.swift.begSndNxt <= h.ack;
      r.tcb.cong == Open ==>
        && r.swift.begSndNxt == (if starts then s.tcb.nextTx else s.swift.begSndNxt)
        && r.swift.cntRtt == if starts then 0 else s.swift.cntRtt + if r.tcb.lastRtt == 0 then 0 else 1
  {
    hide Inv, TakeAck, Arrive;
    InvMachine(c, s, first);
    HeaderTaken(c, s, first, now, h, a);
    SegmentMachine(c, s, now, h, a);
    ArriveFrame(s, now, h, a);
    ArriveTakes(s, now, h, a);
    var s1 := Arrive(s, now, h, a);
    if Step(c, s, Segment(now, h, a)).tcb.cong == Open {
      TakeTurns(c, s1, h, a);
      SendLoopSwift(c, TakeAck(c, s1, h, a), a.offers, 0);
    }
  }
}
