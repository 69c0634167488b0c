/** What an arriving segment adds to the receiver's bytes, and a transfer that completes. */
module NetworkDelivery {
  import opened TcpTypes
  import opened Sender
  import opened SenderInvariants
  import opened Network
  import T = SenderTheorems
  import M = SenderMachine
  import Tm = SenderTimers
  import H = RttHistory

  /** A position is readable, or held for later. */
  predicate Has(rx: Rx, p: nat) {
    p < rx.next || p in rx.held
  }

  /** The byte at a position that is not yet readable, or was made readable last. */
  function ByteAt(rx: Rx, first: nat, p: nat): Byte
    requires |rx.inOrder| == rx.next - first && first <= p && Has(rx, p)
  {
    if p < rx.next then rx.inOrder[p - first] else rx.held[p]
  }

  /** A segment is acceptable: no payload, or one that reaches RCV.NXT and starts below MaxRxSequence. */
  predicate Acceptable(rx: Rx, m: Msg, maxRx: nat) {
    m.payload == [] || (rx.next <= m.seqNo + |m.payload| && m.seqNo < maxRx)
  }

  /** An end that takes an ACK takes the payload with it. */
  predicate TakesAck(e: Endpoint, m: Msg) {
    e.socket.connected && e.socket.tx.head <= m.ack <= e.socket.tcb.highTx
  }

  lemma {:induction false} DeliverKeepsBytes(rx: Rx, first: nat)
    requires |rx.inOrder| == rx.next - first && first <= rx.next
    ensures
      var r := Deliver(rx);
      && |r.inOrder| == r.next - first && rx.inOrder <= r.inOrder
      && forall p: nat :: first <= p && Has(r, p) && (rx.next <= p) ==> p in rx.held && ByteAt(r, first, p) == rx.held[p]
    decreases |rx.held|
  {
    if rx.next in rx.held {
      var rest := Rx(rx.next + 1, rx.inOrder + [rx.held[rx.next]], rx.held - {rx.next});
      DeliverKeepsBytes(rest, first);
      assert Deliver(rx).inOrder[rx.next - first] == rx.held[rx.next];
    }
  }

  /** Exactly the bytes of an acceptable segment at or past RCV.NXT and below MaxRxSequence are added to those the receiver
      has, whatever the order they arrive in: all of them when the end takes the ACK, else none. In order, RCV.NXT moves
      past them, and it always stands at the first byte missing. */
  lemma ArrivalAddsExactly(e: Endpoint, m: Msg, at: nat, h: Header, a: AckAnswers, maxRx: nat)
    ensures
      var r, takes := Act(e, Arrives(m, at, h, a, maxRx)).rx, TakesAck(e, m) && Acceptable(e.rx, m, maxRx);
      && (forall p: nat :: Has(r, p) <==>
            Has(e.rx, p) || (takes && m.seqNo <= p < m.seqNo + |m.payload| && e.rx.next <= p < maxRx))
      && (takes && m.seqNo <= e.rx.next ==> Min(m.seqNo + |m.payload|, maxRx) <= r.next)
      && e.rx.next <= r.next && (takes ==> !Has(r, r.next))
  {
    hide Step;
    var rx := e.rx.(held := e.rx.held + Fresh(e.rx, m.seqNo, m.payload, maxRx));
    DeliverExact(rx);
    var r := Act(e, Arrives(m, at, h, a, maxRx)).rx;
    if TakesAck(e, m) && Acceptable(e.rx, m, maxRx) {
      assert r == Deliver(rx);
      forall p: nat
        ensures p in rx.held <==> p in e.rx.held || (m.seqNo <= p < m.seqNo + |m.payload| && e.rx.next <= p < maxRx)
      {
      }
      assert r.next !in rx.held;
    }
  }

  /** And with their values: what was readable stays, and every byte added is the segment's. */
  lemma ArrivalKeepsBytes(e: Endpoint, first: nat, m: Msg, at: nat, h: Header, a: AckAnswers, maxRx: nat)
    requires first <= e.rx.next && |e.rx.inOrder| == e.rx.next - first && forall p :: p in e.rx.held ==> e.rx.next <= p
    ensures
      var r := Act(e, Arrives(m, at, h, a, maxRx)).rx;
      && |r.inOrder| == r.next - first && e.rx.inOrder <= r.inOrder
      && (forall p: nat :: first <= p && Has(e.rx, p) ==> Has(r, p) && ByteAt(r, first, p) == ByteAt(e.rx, first, p))
      && forall p: nat :: first <= p && Has(r, p) && !Has(e.rx, p) ==>
           m.seqNo <= p < m.seqNo + |m.payload| && ByteAt(r, first, p) == m.payload[p - m.seqNo]
  {
    hide Step;
    ArrivalAddsExactly(e, m, at, h, a, maxRx);
    var rx := e.rx.(held := e.rx.held + Fresh(e.rx, m.seqNo, m.payload, maxRx));
    DeliverKeepsBytes(rx, first);
    DeliverExact(rx);
  }

  // A transfer

  /** Written, sent in one segment, taken in, acknowledged: the four moves of a one-way transfer. */
  function Transfer(ca: Config, sa: Start, sb: Start, bytes: seq<Byte>, h: Header, a: AckAnswers, k: Header, b: AckAnswers,
                    maxRx: nat): seq<Move>
    requires bytes != []
  {
    var data, ack := Msg(sa.first, bytes, sb.first), Msg(sb.first, [], sa.first + |bytes|);
    [MoveA(AppWrites(bytes), {})] + [MoveA(Internal(Flush(0, Tm.OneWrite(|bytes|))), {data})]
    + [MoveB(Arrives(data, 0, h, a, maxRx), {ack})] + [MoveA(Arrives(ack, 0, k, b, maxRx), {})]
  }

  lemma OneMore(s: Sys, moves: seq<Move>, m: Move)
    ensures Network.Run(s, moves + [m]) == Next(Network.Run(s, moves), m)
    ensures IsRun(s, moves + [m]) <==> IsRun(s, moves) && Enabled(Network.Run(s, moves), m)
  {
    assert (moves + [m])[..|moves + [m]| - 1] == moves;
  }

  /** The first end once its segment is out. */
  lemma SegmentOut(ca: Config, sa: Start, sb: Start, bytes: seq<Byte>)
    requires 0 < |bytes| <= sa.segmentSize <= Min(sa.rWnd, sa.cWnd)
    ensures
      var x := Endpoint(ca, sa.first, T.Fresh(ca, sa), [], Rx(sb.first, [], map[]));
      var x1 := Act(x, AppWrites(bytes));
      var x2 := Act(x1, Internal(Flush(0, Tm.OneWrite(|bytes|))));
      && CanEmit(x1, x2, Msg(sa.first, bytes, sb.first))
      && x2.socket.tx.head == sa.first && x2.socket.tx.tail == x2.socket.tcb.highTx == sa.first + |bytes|
      && x2.socket.connected && x2.written == bytes && x2.rx == x.rx && x2.config == ca
  {
    hide SendPendingData;
    Tm.TailSent(ca, sa, |bytes|);
    var x := Endpoint(ca, sa.first, T.Fresh(ca, sa), [], Rx(sb.first, [], map[]));
    var x2 := Act(Act(x, AppWrites(bytes)), Internal(Flush(0, Tm.OneWrite(|bytes|))));
    assert x2.written == bytes;
    assert IsSent(x2, x2.socket.sends[0], Msg(sa.first, bytes, sb.first));
  }

  /** The second end takes the segment in and may acknowledge it. */
  lemma SegmentTaken(cb: Config, sa: Start, sb: Start, bytes: seq<Byte>, h: Header, a: AckAnswers, maxRx: nat)
    requires 0 < |bytes| && sa.first + |bytes| <= maxRx
    ensures
      var y := Endpoint(cb, sb.first, T.Fresh(cb, sb), [], Rx(sa.first, [], map[]));
      var y1 := Act(y, Arrives(Msg(sa.first, bytes, sb.first), 0, h, a, maxRx));
      y1.rx.inOrder == bytes && y1.rx.next == sa.first + |bytes| && CanEmit(y, y1, Msg(sb.first, [], sa.first + |bytes|))
  {
    hide Step, Act;
    var y := Endpoint(cb, sb.first, T.Fresh(cb, sb), [], Rx(sa.first, [], map[]));
    var m := Msg(sa.first, bytes, sb.first);
    ArrivalAddsExactly(y, m, 0, h, a, maxRx);
    ArrivalKeepsBytes(y, sa.first, m, 0, h, a, maxRx);
    var rx := Act(y, Arrives(m, 0, h, a, maxRx)).rx;
    assert !Has(rx, sa.first + |bytes|);
    assert rx.next == sa.first + |bytes|;
    forall i | 0 <= i < |bytes|
      ensures rx.inOrder[i] == bytes[i]
    {
      assert Has(rx, sa.first + i) && !Has(y.rx, sa.first + i);
      assert ByteAt(rx, sa.first, sa.first + i) == rx.inOrder[i];
    }
  }

  /** Whatever else the headers and the unseen code answer, after those four moves the second end has read all that the
      first wrote, and the first knows it. */
  lemma TransferCompletes(ca: Config, sa: Start, cb: Config, sb: Start, bytes: seq<Byte>, h: Header, a: AckAnswers,
                          k: Header, b: AckAnswers, maxRx: nat)
    requires 0 < |bytes| <= sa.segmentSize <= Min(sa.rWnd, sa.cWnd) && sa.first + |bytes| <= maxRx
    requires h.ack == sb.first && h.seqNo == sa.first
    requires k.ack == sa.first + |bytes| && k.seqNo == sb.first && b.dataAck.None?
    ensures
      var moves := Transfer(ca, sa, sb, bytes, h, a, k, b, maxRx);
      var r := Network.Run(Opened(ca, sa, cb, sb), moves);
      && IsRun(Opened(ca, sa, cb, sb), moves)
      && r.b.rx.inOrder == bytes == r.a.written
      && r.a.socket.tx.head == r.a.socket.tx.tail == r.b.rx.next
  {
    hide Network.Run, IsRun, Act, CanEmit, EndInv, T.Fresh;
    var s0, data, ack := Opened(ca, sa, cb, sb), Msg(sa.first, bytes, sb.first), Msg(sb.first, [], sa.first + |bytes|);
    var m0, m1 := MoveA(AppWrites(bytes), {}), MoveA(Internal(Flush(0, Tm.OneWrite(|bytes|))), {data});
    var m2, m3 := MoveB(Arrives(data, 0, h, a, maxRx), {ack}), MoveA(Arrives(ack, 0, k, b, maxRx), {});
    var s1 := Next(s0, m0);
    var s2 := Next(s1, m1);
    var s3 := Next(s2, m2);
    Started(s0);
    OneMore(s0, [], m0);
    assert [] + [m0] == [m0];
    SegmentOut(ca, sa, sb, bytes);
    assert Enabled(s1, m1);
    OneMore(s0, [m0], m1);
    SegmentTaken(cb, sa, sb, bytes, h, a, maxRx);
    assert Enabled(s2, m2);
    OneMore(s0, [m0] + [m1], m2);
    assert Enabled(s3, m3);
    OneMore(s0, [m0] + [m1] + [m2], m3);
    Network.RunKeeps(ca, sa, cb, sb, [m0] + [m1] + [m2]);
    EndsKept(s3);
    AckTaken(s3.a, ack, k, b, maxRx);
  }

  lemma EndsKept(s: Sys)
    requires SysInv(s)
    ensures EndInv(s.a) && EndInv(s.b)
  {
  }

  lemma Started(s: Sys)
    ensures Network.Run(s, []) == s && IsRun(s, [])
  {
  }

  /** An ACK of everything sent leaves nothing outstanding. */
  lemma AckTaken(e: Endpoint, m: Msg, k: Header, b: AckAnswers, maxRx: nat)
    requires EndInv(e) && e.socket.connected && m.payload == [] && k.ack == m.ack && e.socket.tx.head <= m.ack
    requires m.ack == e.socket.tcb.highTx == e.socket.tx.tail
    ensures
      var r := Act(e, Arrives(m, 0, k, b, maxRx));
      r.socket.tx.head == r.socket.tx.tail == m.ack && r.written == e.written
  {
    hide Inv, Step;
    StepKeeps(e.config, e.socket, e.first, Segment(0, k, b));
    M.StepHead(e.config, e.socket, e.first, Segment(0, k, b));
  }
}
