/** The congestion machine event by event: exactly when an ACK counts as a duplicate, starts a fast recovery or ends an
    episode, and what a fast recovery records. */
module SenderMachine {
  import opened TcpTypes
  import opened Sender
  import opened SenderInvariants
  import opened SenderTheorems
  import Swift
  import H = RttHistory

  /** The fields the machine consists of; `doing` is Swift's own switch. */
  datatype Machine = Machine(cong: CongState, dupAcks: nat, recover: nat, active: bool, entries: seq<Entry>, doing: bool)

  function MachineOf(s: Socket): Machine {
    Machine(s.tcb.cong, s.dupAckCount, s.recover, s.recoverActive, s.entries, s.swift.doingSwift)
  }

  /** Something new about data outstanding: with SACK a block that says so, without it one more ACK of SND.UNA. */
  predicate Duplicates(c: Config, s: Socket, h: Header, a: AckAnswers) {
    h.ack < s.tcb.highTx && if c.sack then a.sackUpdated else h.ack == s.tx.head
  }

  predicate InRange(s: Socket, h: Header) {
    s.connected && s.tx.head <= h.ack <= s.tcb.highTx
  }

  // Sending leaves the machine alone

  lemma RetransmitMachine(s: Socket, r: Retry)
    ensures MachineOf(DoRetransmit(s, r)) == MachineOf(s)
  {
  }

  lemma {:induction false} SendLoopMachine(c: Config, s: Socket, offers: nat -> Offer, turn: nat)
    ensures MachineOf(SendLoop(c, s, offers, turn)) == MachineOf(s)
    decreases AvailableWindow(s)
  {
    hide Choose;
    var chosen := Choose(c, s, offers(turn));
    if chosen.Some? {
      SendChosenInFlight(c, s, offers(turn));
      SendLoopMachine(c, SendChosen(s, chosen.value, offers(turn).reduced), offers, turn + 1);
    }
  }

  lemma SendPendingMachine(c: Config, s: Socket, offers: nat -> Offer)
    ensures MachineOf(SendPendingData(c, s, offers)) == MachineOf(s)
  {
    SendLoopMachine(c, s, offers, 0);
  }

  // The two halves of ProcessAck

  /** What a duplicate does outside an episode and inside one. */
  function AfterDuplicate(c: Config, m: Machine, una: nat, high: nat, isLost: bool): Machine {
    if m.cong == Recovery || m.cong == Loss then m
    else if m.dupAcks + 1 == c.threshold || isLost then
      Machine(Recovery, m.dupAcks + 1, high, true, m.entries + [Entry(una, high)], false)
    else Machine(Disorder, m.dupAcks + 1, m.recover, m.active, m.entries, m.doing && m.cong == Disorder)
  }

  lemma EnterMachine(c: Config, s: Socket, a: AckAnswers)
    ensures MachineOf(EnterRecovery(c, s, a)) ==
            Machine(Recovery, s.dupAckCount, s.tcb.highTx, true, s.entries + [Entry(s.tx.head, s.tcb.highTx)], false)
  {
    hide DoRetransmit, Swift.GetSsThresh;
    RetransmitMachine(Entering(c, s, a), a.entryRetry);
  }

  lemma CountMachine(s: Socket)
    ensures
      var m, r := MachineOf(s), CountDuplicate(s);
      MachineOf(r) == m.(dupAcks := m.dupAcks + 1, cong := r.tcb.cong, doing := m.doing && m.cong != Open)
      && r.tcb.cong == (if m.cong == Open then Disorder else m.cong) && r.tx == s.tx && r.tcb.highTx == s.tcb.highTx
  {
  }

  lemma DisorderMachine(c: Config, s: Socket, a: AckAnswers)
    requires !s.recoverActive
    ensures
      var m := MachineOf(s);
      MachineOf(DisorderAck(c, s, a)) ==
        if m.dupAcks == c.threshold || a.isLost then
          Machine(Recovery, m.dupAcks, s.tcb.highTx, true, m.entries + [Entry(s.tx.head, s.tcb.highTx)], false)
        else m
  {
    hide EnterRecovery;
    EnterMachine(c, s, a);
  }

  lemma DuplicateMachine(c: Config, s: Socket, a: AckAnswers)
    requires !InEpisode(s) ==> !s.recoverActive
    ensures MachineOf(DupAck(c, s, a)) == AfterDuplicate(c, MachineOf(s), s.tx.head, s.tcb.highTx, a.isLost)
  {
    hide DisorderAck, CountDuplicate;
    if !InEpisode(s) {
      CountMachine(s);
      DisorderMachine(c, CountDuplicate(s), a);
    }
  }

  lemma NoteMachine(c: Config, s: Socket, ack: nat, isDupack: bool, a: AckAnswers)
    requires !InEpisode(s) ==> !s.recoverActive
    ensures MachineOf(NoteAck(c, s, ack, isDupack, a)) ==
            if isDupack then AfterDuplicate(c, MachineOf(s), s.tx.head, s.tcb.highTx, a.isLost) else MachineOf(s)
  {
    hide DupAck, AfterDuplicate;
    DuplicateMachine(c, s.(tcb := s.tcb.(lastAcked := ack)), a);
  }

  lemma PktsAckedMachine(s: Socket)
    ensures MachineOf(PktsAcked(s)) == MachineOf(s)
  {
  }

  lemma IncreaseMachine(c: Config, s: Socket, growth: nat)
    ensures MachineOf(IncreaseWindow(c, s, growth)) == MachineOf(s)
  {
    hide Swift.AdjustedWindow, Swift.CycleTcb;
    Swift.IncreaseWindowShape(c.swift, s.swift, s.tcb, growth);
  }

  lemma NewAckMachine(c: Config, s: Socket, ack: nat, resetRto: bool, rto: nat)
    ensures MachineOf(NewAck(c, s, ack, resetRto, rto)) == MachineOf(s)
  {
  }

  lemma PartialMachine(c: Config, s: Socket, ack: nat, segments: nat, a: AckAnswers)
    ensures MachineOf(PartialAck(c, s, ack, segments, a)) == MachineOf(s)
  {
    hide DoRetransmit;
    RetransmitMachine(s.(tx := PartialHead(c, s.tx, a)), a.partialRetry);
  }

  lemma LossMachine(c: Config, s: Socket, ack: nat, a: AckAnswers)
    ensures MachineOf(LossAck(c, s, ack, a)) == MachineOf(s)
  {
    hide IncreaseWindow;
    IncreaseMachine(c, PktsAcked(s), a.growth);
  }

  /** What an ACK past any recovery point does. */
  function AfterFull(m: Machine, isDupack: bool): Machine {
    match m.cong
    case Open => m
    case Disorder => if isDupack then m else m.(cong := Open, doing := true)
    case Recovery => m.(cong := Open, doing := true, dupAcks := 0, active := false)
    case Loss => m.(cong := Open, doing := true, active := false)
  }

  lemma LeaveMachine(s: Socket, segments: nat, isDupack: bool, oldDupAcks: nat)
    ensures
      var r := MachineOf(LeaveCongestion(s, segments, isDupack, oldDupAcks));
      r == AfterFull(MachineOf(s), isDupack).(active := s.recoverActive)
  {
    hide Swift.PktsAcked;
    PktsAckedMachine(s);
  }

  lemma FullMachine(c: Config, s: Socket, ack: nat, segments: nat, isDupack: bool, oldDupAcks: nat, a: AckAnswers)
    requires s.recoverActive <==> InEpisode(s)
    requires InEpisode(s) ==> s.recover <= ack
    ensures MachineOf(FullAck(c, s, ack, segments, isDupack, oldDupAcks, a)) == AfterFull(MachineOf(s), isDupack)
  {
    hide LeaveCongestion, IncreaseWindow, NewAck;
    LeaveMachine(s, segments, isDupack, oldDupAcks);
    var s1 := LeaveCongestion(s, segments, isDupack, oldDupAcks);
    var s2 := s1.(recoverActive := s1.recoverActive && ack < s1.recover);
    NewAckMachine(c, s2, ack, true, a.ackRto);
    IncreaseMachine(c, s2, a.growth);
    NewAckMachine(c, IncreaseWindow(c, s2, a.growth), ack, true, a.ackRto);
  }

  /** What an ACK that moves SND.UNA does. */
  function AfterAdvance(m: Machine, ack: nat, isDupack: bool): Machine {
    var m1 := m.(dupAcks := if isDupack then m.dupAcks else 0);
    if (m.cong == Recovery || m.cong == Loss) && ack < m.recover then m1 else AfterFull(m1, isDupack)
  }

  lemma AdvanceMachine(c: Config, s: Socket, ack: nat, bytes: nat, isDupack: bool, oldDupAcks: nat, a: AckAnswers)
    requires s.recoverActive <==> InEpisode(s)
    ensures MachineOf(AdvanceUna(c, s, ack, bytes, isDupack, oldDupAcks, a)) == AfterAdvance(MachineOf(s), ack, isDupack)
  {
    hide PartialAck, LossAck, FullAck, AfterFull;
    var segments, s1 := SegmentsAcked(s, bytes), Credited(s, bytes, isDupack);
    if ack < s1.recover && s1.tcb.cong == Recovery {
      PartialMachine(c, s1, ack, segments, a);
    } else if ack < s1.recover && s1.tcb.cong == Loss {
      LossMachine(c, s1, ack, a);
    } else {
      FullMachine(c, s1, ack, segments, isDupack, oldDupAcks, a);
    }
  }

  lemma FinishMachine(c: Config, s: Socket, ack: nat, oldHead: nat, isDupack: bool, oldDupAcks: nat, a: AckAnswers)
    requires s.recoverActive <==> InEpisode(s)
    ensures MachineOf(FinishAck(c, s, ack, oldHead, isDupack, oldDupAcks, a)) ==
            if oldHead < ack then AfterAdvance(MachineOf(s), ack, isDupack) else MachineOf(s)
  {
    hide AdvanceUna, AfterAdvance, PktsAcked;
    PktsAckedMachine(s);
    if oldHead < ack {
      AdvanceMachine(c, s, ack, ack - oldHead, isDupack, oldDupAcks, a);
    }
  }

  lemma ProcessMachine(c: Config, s: Socket, ack: nat, oldHead: nat, a: AckAnswers)
    requires s.recoverActive <==> InEpisode(s)
    ensures
      var m, isDupack := MachineOf(s), IsDupack(c, s, ack, oldHead, a.sackUpdated);
      var m1 := if isDupack then AfterDuplicate(c, m, s.tx.head, s.tcb.highTx, a.isLost) else m;
      MachineOf(ProcessAck(c, s, ack, oldHead, a)) == if oldHead < ack then AfterAdvance(m1, ack, isDupack) else m1
  {
    hide NoteAck, FinishAck, AfterAdvance;
    var isDupack := IsDupack(c, s, ack, oldHead, a.sackUpdated);
    NoteMachine(c, s, ack, isDupack, a);
    FinishMachine(c, NoteAck(c, s, ack, isDupack, a), ack, oldHead, isDupack, s.dupAckCount, a);
  }

  lemma TakeAckMachine(c: Config, s: Socket, h: Header, a: AckAnswers)
    requires s.recoverActive <==> InEpisode(s)
    ensures
      var m, isDupack := MachineOf(s), Duplicates(c, s, h, a);
      var m1 := if isDupack then AfterDuplicate(c, m, h.ack, s.tcb.highTx, a.isLost) else m;
      MachineOf(TakeAck(c, s, h, a)) == if s.tx.head < h.ack then AfterAdvance(m1, h.ack, isDupack) else m1
  {
    hide ProcessAck, AfterAdvance, AfterDuplicate;
    var s1 := EcnEcho(Trimmed(c, s, h.ack, a), h.ack, s.tx.head, h.ece);
    EcnEchoShape(Trimmed(c, s, h.ack, a), h.ack, s.tx.head, h.ece);
    assert MachineOf(s1) == MachineOf(s);
    ProcessMachine(c, s1, h.ack, s.tx.head, a);
  }

  lemma SegmentMachine(c: Config, s: Socket, now: nat, h: Header, a: AckAnswers)
    requires (s.recoverActive <==> InEpisode(s)) && InRange(s, h)
    ensures
      var m, isDupack := MachineOf(s), Duplicates(c, s, h, a);
      var m1 := if isDupack then AfterDuplicate(c, m, h.ack, s.tcb.highTx, a.isLost) else m;
      MachineOf(Step(c, s, Segment(now, h, a))) == if s.tx.head < h.ack then AfterAdvance(m1, h.ack, isDupack) else m1
  {
    hide TakeAck, SendPendingData, AfterAdvance, AfterDuplicate, Arrive;
    ArriveFrame(s, now, h, a);
    var s1 := Arrive(s, now, h, a);
    TakeAckMachine(c, s1, h, a);
    SendPendingMachine(c, TakeAck(c, s1, h, a), a.offers);
  }

  // What each ACK does

  lemma InvMachine(c: Config, s: Socket, first: nat)
    requires Inv(c, s, first)
    ensures CongInv(c, s) && EpisodeOpen(s) && SeqInv(s)
  {
  }

  /** From OPEN or DISORDER an ACK in range raises the duplicate count by one, and leaves OPEN, exactly when it says
      something new about data outstanding; fast recovery starts exactly when that count reaches the threshold or the
      scoreboard says lost. Then one entry is added, at the SND.UNA of the ACK, whose recovery point is the high mark. */
  lemma DuplicateCountsIff(c: Config, s: Socket, first: nat, now: nat, h: Header, a: AckAnswers)
    requires Inv(c, s, first) && InRange(s, h) && (s.tcb.cong == Open || s.tcb.cong == Disorder)
    ensures
      var r, dup := Step(c, s, Segment(now, h, a)), Duplicates(c, s, h, a);
      var enters := dup && (s.dupAckCount + 1 == c.threshold || a.isLost);
      && (dup <==> r.dupAckCount == s.dupAckCount + 1)
      && (dup ==> r.tcb.cong == if enters then Recovery else Disorder)
      && (!dup ==> if s.tx.head < h.ack then r.tcb.cong == Open && r.dupAckCount == 0
                   else r.tcb.cong == s.tcb.cong && r.dupAckCount == s.dupAckCount)
      && (r.tcb.cong == Recovery <==> enters)
      && (r.recoverActive <==> enters)
      && r.recover == (if enters then s.tcb.highTx else s.recover)
      && r.entries == s.entries + if enters then [Entry(h.ack, s.tcb.highTx)] else []
  {
    hide Step, Inv;
    InvMachine(c, s, first);
    SegmentMachine(c, s, now, h, a);
    assert s.entries + [] == s.entries;
  }

  /** RECOVERY ends exactly with an ACK at or past the recovery point, LOSS with one that also moves SND.UNA; no ACK adds
      an entry or moves the point there, and the duplicate count starts over with every ACK of new data alone. */
  lemma EpisodeEndsIff(c: Config, s: Socket, first: nat, now: nat, h: Header, a: AckAnswers)
    requires Inv(c, s, first) && InRange(s, h) && (s.tcb.cong == Recovery || s.tcb.cong == Loss)
    ensures
      var r, ends := Step(c, s, Segment(now, h, a)), s.tx.head < h.ack && s.recover <= h.ack;
      && r.tcb.cong == (if ends then Open else s.tcb.cong)
      && (r.recoverActive <==> !ends)
      && r.recover == s.recover && r.entries == s.entries
      && r.dupAckCount == (if ends || (s.tx.head < h.ack && !Duplicates(c, s, h, a)) then 0 else s.dupAckCount)
      && (s.tcb.cong == Recovery ==> (ends <==> s.recover <= h.ack))
  {
    hide Step, Inv;
    InvMachine(c, s, first);
    SegmentMachine(c, s, now, h, a);
  }

  /** What every other event does: a timeout with data outstanding and a retry left starts LOSS at the high mark, with no
      duplicates counted; nothing else touches the machine. */
  lemma OtherEventsMachine(c: Config, s: Socket, e: Event)
    requires !e.Segment? || !InRange(s, e.header)
    ensures
      var r, fires := Step(c, s, e), e.Timeout? && s.connected && s.tx.head < s.tx.tail && 0 < s.dataRetrCount;
      MachineOf(r) == if fires then Machine(Loss, 0, s.tcb.highTx, true, s.entries, false) else MachineOf(s)
  {
    hide SendPendingData, ReceivedAck, Arrive, ReTxTimeout;
    match e
    case Flush(now, offers) => SendPendingMachine(c, s.(now := now), offers);
    case Segment(now, h, a) => ArriveFrame(s, now, h, a);
    case Timeout(now, t) => TimeoutMachine(c, s.(now := now), t);
    case _ =>
  }

  lemma TimeoutMachine(c: Config, s: Socket, t: TimeoutAnswers)
    ensures MachineOf(ReTxTimeout(c, s, t)) ==
            if s.tx.head < s.tx.tail && 0 < s.dataRetrCount then Machine(Loss, 0, s.tcb.highTx, true, s.entries, false)
            else MachineOf(s)
  {
    hide SendPendingData, Swift.GetSsThresh;
    if 0 < s.dataRetrCount {
      SendPendingMachine(c, Backoff(c, s, t), Unpaced(t.offers));
    }
  }

  // Over runs

  /** Going into RECOVERY, and nothing else, adds an entry: SND.UNA and the high mark of that moment. */
  lemma EntryAtHighMark(c: Config, s: Socket, first: nat, e: Event)
    requires Inv(c, s, first)
    ensures
      var r := Step(c, s, e);
      && (s.tcb.cong != Recovery && r.tcb.cong == Recovery ==>
            r.entries == s.entries + [Entry(r.tx.head, s.tcb.highTx)] && r.recover == s.tcb.highTx)
      && (s.tcb.cong == Recovery || r.tcb.cong != Recovery ==> r.entries == s.entries)
  {
    hide Step, Inv;
    InvMachine(c, s, first);
    if e.Segment? && InRange(s, e.header) {
      StepHead(c, s, first, e);
      if s.tcb.cong == Recovery || s.tcb.cong == Loss {
        EpisodeEndsIff(c, s, first, e.at, e.header, e.answers);
      } else {
        DuplicateCountsIff(c, s, first, e.at, e.header, e.answers);
      }
    } else {
      OtherEventsMachine(c, s, e);
    }
  }

  /** An ACK in range is where SND.UNA goes. */
  lemma StepHead(c: Config, s: Socket, first: nat, e: Event)
    requires Inv(c, s, first) && e.Segment? && InRange(s, e.header)
    ensures Step(c, s, e).tx.head == e.header.ack
  {
    hide ReceivedAck, Arrive;
    var h, a := e.header, e.answers;
    ArriveFrame(s, e.at, h, a);
    ArriveKeeps(c, s, first, e.at, h, a);
    hide Inv;
    ReceivedAckKeeps(c, Arrive(s, e.at, h, a), first, h, a);
  }

  /** Swift is switched on exactly in OPEN. */
  predicate OnInOpen(m: Machine) {
    m.doing <==> m.cong == Open
  }

  lemma StepOnInOpen(c: Config, s: Socket, first: nat, e: Event)
    requires Inv(c, s, first) && OnInOpen(MachineOf(s))
    ensures OnInOpen(MachineOf(Step(c, s, e)))
  {
    hide Step, Inv;
    InvMachine(c, s, first);
    if e.Segment? && InRange(s, e.header) {
      SegmentMachine(c, s, e.at, e.header, e.answers);
    } else {
      OtherEventsMachine(c, s, e);
    }
  }

  lemma {:induction false} SwiftRunsInOpen(c: Config, b: Start, es: seq<Event>)
    ensures After(c, b, es).swift.doingSwift <==> After(c, b, es).tcb.cong == Open
  {
    hide Step, Inv;
    if es != [] {
      var front := es[..|es| - 1];
      SwiftRunsInOpen(c, b, front);
      AfterInv(c, b, front);
      StepOnInOpen(c, After(c, b, front), b.first, es[|es| - 1]);
    }
  }

  lemma {:induction false} SentBelowHigh(c: Config, b: Start, es: seq<Event>)
    ensures
      var s := After(c, b, es);
      forall k :: 0 <= k < |s.sends| ==> s.sends[k].lo < s.sends[k].hi <= s.tcb.highTx
  {
    hide Step, Inv;
    if es != [] {
      var front := es[..|es| - 1];
      SentBelowHigh(c, b, front);
      AfterInv(c, b, front);
      StepKeeps(c, After(c, b, front), b.first, es[|es| - 1]);
    }
  }

  lemma {:induction false} EntriesGrow(c: Config, b: Start, es: seq<Event>, i: nat)
    requires i <= |es|
    ensures After(c, b, es[..i]).entries <= After(c, b, es).entries
  {
    hide Step, Inv;
    if i == |es| {
      assert es[..i] == es;
    } else {
      var front := es[..|es| - 1];
      assert front[..i] == es[..i];
      EntriesGrow(c, b, front, i);
      AfterInv(c, b, front);
      EntryAtHighMark(c, After(c, b, front), b.first, es[|es| - 1]);
    }
  }

  /** Event number i of a run takes the sender into fast recovery. */
  ghost predicate EntersAt(c: Config, b: Start, es: seq<Event>, i: nat)
    requires i < |es|
  {
    After(c, b, es[..i]).tcb.cong != Recovery && After(c, b, es[..i + 1]).tcb.cong == Recovery
  }

  lemma EntryRecorded(c: Config, b: Start, es: seq<Event>, i: nat)
    requires i < |es| && EntersAt(c, b, es, i)
    ensures
      var s, r := After(c, b, es[..i]), After(c, b, es[..i + 1]);
      r.entries == s.entries + [Entry(r.tx.head, s.tcb.highTx)]
  {
    hide Step, Inv;
    AfterInv(c, b, es[..i]);
    assert es[..i + 1] == es[..i] + [es[i]];
    RunAppend(c, Fresh(c, b), es[..i], es[i]);
    EntryAtHighMark(c, After(c, b, es[..i]), b.first, es[i]);
  }

  /** RFC 6675 section 5.1: when a fast recovery starts, every byte sent before an earlier one started is acknowledged. */
  lemma RecoveriesApart(c: Config, b: Start, es: seq<Event>, i: nat, j: nat)
    requires i < j < |es| && EntersAt(c, b, es, i) && EntersAt(c, b, es, j)
    ensures
      var sent, una := After(c, b, es[..i]).sends, After(c, b, es[..j + 1]).tx.head;
      forall k :: 0 <= k < |sent| ==> sent[k].hi <= una
  {
    hide Run, EntersAt;
    EntryRecorded(c, b, es, i);
    EntryRecorded(c, b, es, j);
    assert es[..j][..i + 1] == es[..i + 1];
    EntriesGrow(c, b, es[..j], i + 1);
    RecoveriesSeparated(c, b, es[..j + 1]);
    SentBelowHigh(c, b, es[..i]);
    var s, t := After(c, b, es[..i]), After(c, b, es[..j + 1]);
    assert t.entries[|s.entries|].point <= t.entries[|t.entries| - 1].una;
  }
}
