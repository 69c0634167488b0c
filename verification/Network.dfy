/** Two established endpoints over a network that loses, duplicates and reorders. Each end is the full sender of
    `Sender` with a receive buffer beside it; no FIN, no zero-window probes. */
module Network {
  import opened TcpTypes
  import opened Sender
  import opened SenderInvariants
  import T = SenderTheorems
  import H = RttHistory

  type Byte = b: int | 0 <= b < 256

  // The receive buffer

  /** `next` is NextRxSequence, `inOrder` what the application can read or has read, `held` the data that arrived
      ahead of a gap. */
  datatype Rx = Rx(next: nat, inOrder: seq<Byte>, held: map<nat, Byte>)

  /** Arriving bytes the buffer takes: not yet received, and below MaxRxSequence. */
  function Fresh(rx: Rx, lo: nat, payload: seq<Byte>, maxRx: nat): map<nat, Byte> {
    map p: nat | lo <= p < lo + |payload| && rx.next <= p < maxRx && p !in rx.held :: payload[p - lo]
  }

  /** Everything contiguous becomes readable. */
  function Deliver(rx: Rx): Rx
    decreases |rx.held|
  {
    if rx.next in rx.held then
      Deliver(Rx(rx.next + 1, rx.inOrder + [rx.held[rx.next]], rx.held - {rx.next}))
    else rx
  }

  /** TcpRxBuffer::Add. */
  function Add(rx: Rx, lo: nat, payload: seq<Byte>, maxRx: nat): Rx {
    Deliver(rx.(held := rx.held + Fresh(rx, lo, payload, maxRx)))
  }

  /** A data segment lying wholly outside the buffer. */
  predicate OutOfRange(rx: Rx, head: nat, tail: nat, maxRx: nat) {
    tail < rx.next || maxRx <= head
  }

  lemma {:induction false} DeliverExact(rx: Rx)
    ensures
      var r := Deliver(rx);
      rx.next <= r.next && r.next !in rx.held && (forall p :: rx.next <= p < r.next ==> p in rx.held)
      && forall p :: p in r.held <==> p in rx.held && !(rx.next <= p < r.next)
    decreases |rx.held|
  {
    if rx.next in rx.held {
      var rest := Rx(rx.next + 1, rx.inOrder + [rx.held[rx.next]], rx.held - {rx.next});
      DeliverExact(rest);
      assert forall p :: p in rest.held <==> p in rx.held && p != rx.next;
    }
  }

  /** NextRxSequence moves to the first byte missing, and no accepted byte is lost. */
  lemma AddExact(rx: Rx, lo: nat, payload: seq<Byte>, maxRx: nat)
    ensures
      var r := Add(rx, lo, payload, maxRx);
      var known := rx.held + Fresh(rx, lo, payload, maxRx);
      rx.next <= r.next && r.next !in known && (forall p :: rx.next <= p < r.next ==> p in known)
      && forall p :: p in known ==> p in r.held || rx.next <= p < r.next
  {
    DeliverExact(rx.(held := rx.held + Fresh(rx, lo, payload, maxRx)));
  }

  /** The buffer agrees with the stream sent so far, whose first byte has number `first`. */
  ghost predicate Agrees(rx: Rx, first: nat, stream: seq<Byte>, highTx: nat) {
    && first <= rx.next <= highTx <= first + |stream|
    && rx.inOrder == stream[..rx.next - first]
    && forall p :: p in rx.held ==> rx.next <= p < highTx && rx.held[p] == stream[p - first]
  }

  lemma {:induction false} DeliverAgrees(rx: Rx, first: nat, stream: seq<Byte>, highTx: nat)
    requires Agrees(rx, first, stream, highTx)
    ensures Agrees(Deliver(rx), first, stream, highTx)
    decreases |rx.held|
  {
    if rx.next in rx.held {
      var rest := Rx(rx.next + 1, rx.inOrder + [rx.held[rx.next]], rx.held - {rx.next});
      assert Agrees(rest, first, stream, highTx) by {
        assert stream[..rx.next + 1 - first] == stream[..rx.next - first] + [stream[rx.next - first]];
      }
      hide Agrees;
      DeliverAgrees(rest, first, stream, highTx);
    }
  }

  /** A segment's bytes are the bytes of the stream at its place. */
  ghost predicate Carries(m: Msg, first: nat, stream: seq<Byte>, highTx: nat) {
    m.payload == []
    || (first <= m.seqNo && m.seqNo + |m.payload| <= highTx <= first + |stream|
        && m.payload == stream[m.seqNo - first..m.seqNo - first + |m.payload|])
  }

  lemma AddAgrees(rx: Rx, m: Msg, maxRx: nat, first: nat, stream: seq<Byte>, highTx: nat)
    requires Agrees(rx, first, stream, highTx) && Carries(m, first, stream, highTx)
    ensures Agrees(Add(rx, m.seqNo, m.payload, maxRx), first, stream, highTx)
  {
    var known := rx.held + Fresh(rx, m.seqNo, m.payload, maxRx);
    forall p | p in known
      ensures rx.next <= p < highTx && known[p] == stream[p - first]
    {
      if p in Fresh(rx, m.seqNo, m.payload, maxRx) {
        assert m.payload[p - m.seqNo] == stream[m.seqNo - first..m.seqNo - first + |m.payload|][p - m.seqNo];
      }
    }
    DeliverAgrees(rx.(held := known), first, stream, highTx);
  }

  // The endpoints

  /** A segment in transit: pure acknowledgments have no payload. */
  datatype Msg = Msg(seqNo: nat, payload: seq<Byte>, ack: nat)

  datatype Endpoint = Endpoint(config: Config, first: nat, socket: Socket, written: seq<Byte>, rx: Rx)

  /** What can happen at one end. Only the numbers of an arriving segment are trusted; the rest of its header
      (window, ECE, TTL, timestamp) is arbitrary. */
  datatype Action =
    | AppWrites(bytes: seq<Byte>)
    | Internal(event: Event)
    | Arrives(msg: Msg, at: nat, header: Header, answers: AckAnswers, maxRx: nat)

  predicate Possible(x: Action) {
    match x
    case AppWrites(_) => true
    case Internal(e) => !e.Write? && !e.Segment?
    case Arrives(m, _, h, a, _) => h.ack == m.ack && h.seqNo == m.seqNo && (m.payload == [] ==> a.dataAck.None?)
  }

  function OnArrival(e: Endpoint, m: Msg, at: nat, h: Header, a: AckAnswers, maxRx: nat): Endpoint {
    if m.payload != [] && OutOfRange(e.rx, m.seqNo, m.seqNo + |m.payload|, maxRx) then
      e.(socket := Step(e.config, e.socket, EmptyAck(a.rangeRto)))
    else
      var inRange := e.socket.connected && e.socket.tx.head <= m.ack <= e.socket.tcb.highTx;
      e.(socket := Step(e.config, e.socket, Segment(at, h, a)),
         rx := if inRange then Add(e.rx, m.seqNo, m.payload, maxRx) else e.rx)
  }

  function Act(e: Endpoint, x: Action): Endpoint {
    match x
    case AppWrites(bytes) => e.(socket := Step(e.config, e.socket, Write(|bytes|)), written := e.written + bytes)
    case Internal(event) => e.(socket := Step(e.config, e.socket, event))
    case Arrives(m, at, h, a, maxRx) => OnArrival(e, m, at, h, a, maxRx)
  }

  /** What an end may put on the wire during one action: the segments the sender recorded as sent, and pure
      acknowledgments, each acknowledging what NextRxSequence was at some moment of the action. */
  ghost predicate CanEmit(before: Endpoint, after: Endpoint, m: Msg) {
    && before.rx.next <= m.ack <= after.rx.next
    && (m.payload == [] || exists i :: |before.socket.sends| <= i < |after.socket.sends|
                                       && IsSent(after, after.socket.sends[i], m))
  }

  ghost predicate IsSent(e: Endpoint, span: H.Span, m: Msg) {
    && e.first <= span.lo < span.hi <= e.first + |e.written|
    && m.seqNo == span.lo && m.payload == e.written[span.lo - e.first..span.hi - e.first]
  }

  // The system

  /** Segments stay in `toA` and `toB` once sent: taking one twice is duplication, in any order reordering, never
      taking it loss. */
  datatype Sys = Sys(a: Endpoint, b: Endpoint, toA: set<Msg>, toB: set<Msg>)

  datatype Move = MoveA(x: Action, sent: set<Msg>) | MoveB(x: Action, sent: set<Msg>)

  ghost predicate Enabled(s: Sys, m: Move) {
    && Possible(m.x)
    && match m
       case MoveA(x, sent) => (x.Arrives? ==> x.msg in s.toA) && forall msg :: msg in sent ==> CanEmit(s.a, Act(s.a, x), msg)
       case MoveB(x, sent) => (x.Arrives? ==> x.msg in s.toB) && forall msg :: msg in sent ==> CanEmit(s.b, Act(s.b, x), msg)
  }

  function Next(s: Sys, m: Move): Sys {
    match m
    case MoveA(x, sent) => s.(a := Act(s.a, x), toB := s.toB + sent)
    case MoveB(x, sent) => s.(b := Act(s.b, x), toA := s.toA + sent)
  }

  // The invariant

  ghost predicate EndInv(e: Endpoint) {
    Inv(e.config, e.socket, e.first) && e.socket.tx.tail == e.first + |e.written|
  }

  /** One direction: x sends to y, `data` is on its way to y and `acks` to x. */
  ghost predicate Link(x: Endpoint, y: Endpoint, data: set<Msg>, acks: set<Msg>) {
    && Agrees(y.rx, x.first, x.written, x.socket.tcb.highTx)
    && x.socket.tx.head <= y.rx.next
    && (forall m :: m in data ==> Carries(m, x.first, x.written, x.socket.tcb.highTx))
    && (forall m :: m in acks ==> m.ack <= y.rx.next)
  }

  ghost predicate SysInv(s: Sys) {
    EndInv(s.a) && EndInv(s.b) && Link(s.a, s.b, s.toB, s.toA) && Link(s.b, s.a, s.toA, s.toB)
  }

  /** What one action does to the end's own stream and sequence numbers. */
  ghost predicate Advanced(e: Endpoint, r: Endpoint, x: Action) {
    && r.config == e.config && r.first == e.first && e.written <= r.written && EndInv(r)
    && (r.socket.tx.head == e.socket.tx.head || (x.Arrives? && r.socket.tx.head == x.msg.ack))
    && e.socket.tcb.highTx <= r.socket.tcb.highTx && e.socket.sends <= r.socket.sends
    && forall i :: |e.socket.sends| <= i < |r.socket.sends| ==> r.socket.sends[i].hi <= r.socket.tcb.highTx
  }

  lemma ActAdvances(e: Endpoint, x: Action)
    requires EndInv(e) && Possible(x)
    ensures Advanced(e, Act(e, x), x)
  {
    hide Inv, Step;
    match x
    case AppWrites(bytes) => StepKeeps(e.config, e.socket, e.first, Write(|bytes|));
    case Internal(event) => StepKeeps(e.config, e.socket, e.first, event);
    case Arrives(m, at, h, a, _) =>
      StepKeeps(e.config, e.socket, e.first, EmptyAck(a.rangeRto));
      StepKeeps(e.config, e.socket, e.first, Segment(at, h, a));
  }

  lemma PrefixSlice(s: seq<Byte>, t: seq<Byte>, lo: nat, hi: nat)
    requires s <= t && lo <= hi <= |s|
    ensures s[lo..hi] == t[lo..hi]
  {
  }

  /** The receiver and the segments in transit stay right when the stream grows. */
  lemma GrowingStream(rx: Rx, first: nat, s: seq<Byte>, t: seq<Byte>, high: nat, high': nat)
    requires Agrees(rx, first, s, high) && s <= t && high <= high' <= first + |t|
    ensures Agrees(rx, first, t, high')
  {
    PrefixSlice(s, t, 0, rx.next - first);
  }

  lemma GrowingCarries(m: Msg, first: nat, s: seq<Byte>, t: seq<Byte>, high: nat, high': nat)
    requires Carries(m, first, s, high) && s <= t && high <= high' <= first + |t|
    ensures Carries(m, first, t, high')
  {
    if m.payload != [] {
      PrefixSlice(s, t, m.seqNo - first, m.seqNo - first + |m.payload|);
    }
  }

  /** The direction x sends in, when x acts: SND.UNA moves only to an acknowledgment that was in transit, and what is
      sent is the stream's own. */
  lemma SenderKeepsLink(x: Endpoint, y: Endpoint, data: set<Msg>, acks: set<Msg>, act: Action, sent: set<Msg>)
    requires EndInv(x) && Link(x, y, data, acks) && Possible(act)
    requires act.Arrives? ==> act.msg in acks
    requires forall m :: m in sent ==> CanEmit(x, Act(x, act), m)
    ensures Link(Act(x, act), y, data + sent, acks)
  {
    hide Inv, Act, Agrees, Carries;
    var r := Act(x, act);
    ActAdvances(x, act);
    InvOrder(r);
    GrownLink(x, y, data, acks, r);
    forall m | m in sent
      ensures Carries(m, r.first, r.written, r.socket.tcb.highTx)
    {
      EmittedCarries(x, r, act, m);
    }
  }

  lemma InvOrder(e: Endpoint)
    requires EndInv(e)
    ensures e.socket.tx.head <= e.socket.tcb.highTx <= e.first + |e.written|
  {
  }

  lemma GrownLink(x: Endpoint, y: Endpoint, data: set<Msg>, acks: set<Msg>, r: Endpoint)
    requires Link(x, y, data, acks) && r.first == x.first && x.written <= r.written
    requires x.socket.tcb.highTx <= r.socket.tcb.highTx <= r.first + |r.written|
    ensures Agrees(y.rx, r.first, r.written, r.socket.tcb.highTx)
    ensures forall m :: m in data ==> Carries(m, r.first, r.written, r.socket.tcb.highTx)
  {
    hide Agrees, Carries;
    GrowingStream(y.rx, x.first, x.written, r.written, x.socket.tcb.highTx, r.socket.tcb.highTx);
    forall m | m in data
      ensures Carries(m, r.first, r.written, r.socket.tcb.highTx)
    {
      GrowingCarries(m, x.first, x.written, r.written, x.socket.tcb.highTx, r.socket.tcb.highTx);
    }
  }

  lemma EmittedCarries(x: Endpoint, r: Endpoint, act: Action, m: Msg)
    requires Advanced(x, r, act) && CanEmit(x, r, m)
    ensures Carries(m, r.first, r.written, r.socket.tcb.highTx)
  {
    InvOrder(r);
    hide Inv;
  }

  /** The other direction, when the receiver y acts: only data of the stream is taken in, and nothing beyond
      NextRxSequence is acknowledged. */
  lemma ReceiverKeepsLink(x: Endpoint, y: Endpoint, data: set<Msg>, acks: set<Msg>, act: Action, sent: set<Msg>)
    requires Link(x, y, data, acks)
    requires act.Arrives? ==> act.msg in data
    requires forall m :: m in sent ==> CanEmit(y, Act(y, act), m)
    ensures Link(x, Act(y, act), data, acks + sent)
  {
    hide Step, Agrees, Carries, Add;
    if act.Arrives? {
      AddAgrees(y.rx, act.msg, act.maxRx, x.first, x.written, x.socket.tcb.highTx);
      AddExact(y.rx, act.msg.seqNo, act.msg.payload, act.maxRx);
    }
  }

  lemma NextKeeps(s: Sys, m: Move)
    requires SysInv(s) && Enabled(s, m)
    ensures SysInv(Next(s, m))
  {
    hide Act, Link, CanEmit, EndInv;
    match m
    case MoveA(x, sent) =>
      ActAdvances(s.a, x);
      SenderKeepsLink(s.a, s.b, s.toB, s.toA, x, sent);
      ReceiverKeepsLink(s.b, s.a, s.toA, s.toB, x, sent);
    case MoveB(x, sent) =>
      ActAdvances(s.b, x);
      SenderKeepsLink(s.b, s.a, s.toA, s.toB, x, sent);
      ReceiverKeepsLink(s.a, s.b, s.toB, s.toA, x, sent);
  }

  // Runs

  /** Two ends as the handshake leaves them, each expecting the other's first byte. */
  function Opened(ca: Config, sa: Start, cb: Config, sb: Start): Sys {
    Sys(Endpoint(ca, sa.first, T.Fresh(ca, sa), [], Rx(sb.first, [], map[])),
        Endpoint(cb, sb.first, T.Fresh(cb, sb), [], Rx(sa.first, [], map[])), {}, {})
  }

  function Run(s: Sys, moves: seq<Move>): Sys {
    if moves == [] then s else Next(Run(s, moves[..|moves| - 1]), moves[|moves| - 1])
  }

  ghost predicate IsRun(s: Sys, moves: seq<Move>) {
    moves == [] || (IsRun(s, moves[..|moves| - 1]) && Enabled(Run(s, moves[..|moves| - 1]), moves[|moves| - 1]))
  }

  lemma {:induction false} RunKeeps(ca: Config, sa: Start, cb: Config, sb: Start, moves: seq<Move>)
    requires IsRun(Opened(ca, sa, cb, sb), moves)
    ensures SysInv(Run(Opened(ca, sa, cb, sb), moves))
  {
    if moves == [] {
      T.AfterInv(ca, sa, []);
      T.AfterInv(cb, sb, []);
    } else {
      RunKeeps(ca, sa, cb, sb, moves[..|moves| - 1]);
      NextKeeps(Run(Opened(ca, sa, cb, sb), moves[..|moves| - 1]), moves[|moves| - 1]);
    }
  }

  /** What x has sent and y has received. */
  ghost predicate Reliable(x: Endpoint, y: Endpoint, acks: set<Msg>) {
    && x.socket.tx.head <= y.rx.next <= x.socket.tcb.highTx
    && y.rx.inOrder <= x.written && |y.rx.inOrder| == y.rx.next - x.first
    && (forall m :: m in acks ==> m.ack <= y.rx.next)
  }

  /** In every reachable state and in both directions: SND.UNA <= RCV.NXT <= the high mark, no acknowledgment in
      transit passes RCV.NXT, and what was received in order is a prefix of what was written. */
  lemma ReliableDelivery(ca: Config, sa: Start, cb: Config, sb: Start, moves: seq<Move>)
    requires IsRun(Opened(ca, sa, cb, sb), moves)
    ensures
      var s := Run(Opened(ca, sa, cb, sb), moves);
      Reliable(s.a, s.b, s.toA) && Reliable(s.b, s.a, s.toB)
  {
    hide Run, IsRun;
    RunKeeps(ca, sa, cb, sb, moves);
  }

  /** All data x has discarded y received in order; once x has no data left, y holds all that x wrote. */
  ghost predicate Delivered(x: Endpoint, y: Endpoint) {
    && x.first <= x.socket.tx.head <= x.first + |x.written|
    && x.written[..x.socket.tx.head - x.first] <= y.rx.inOrder
    && (x.socket.tx.head == x.socket.tx.tail ==> y.rx.inOrder == x.written)
  }

  /** In both directions: a sender never discards a byte its peer lacks, and once all that was written is acknowledged the
      peer holds the whole stream. */
  lemma DiscardedWasDelivered(ca: Config, sa: Start, cb: Config, sb: Start, moves: seq<Move>)
    requires IsRun(Opened(ca, sa, cb, sb), moves)
    ensures
      var s := Run(Opened(ca, sa, cb, sb), moves);
      Delivered(s.a, s.b) && Delivered(s.b, s.a)
  {
    hide Run, IsRun, Link;
    RunKeeps(ca, sa, cb, sb, moves);
    var s := Run(Opened(ca, sa, cb, sb), moves);
    LinkDelivers(s.a, s.b, s.toB, s.toA);
    LinkDelivers(s.b, s.a, s.toA, s.toB);
  }

  lemma LinkDelivers(x: Endpoint, y: Endpoint, data: set<Msg>, acks: set<Msg>)
    requires EndInv(x) && Link(x, y, data, acks)
    ensures Delivered(x, y)
  {
    InvOrder(x);
    assert x.first <= x.socket.tx.head;
    hide Inv;
    PrefixSlice(y.rx.inOrder, x.written, 0, x.socket.tx.head - x.first);
  }

  /** Hence the branch of ProcessEstablished for an ACK of data never sent is dead in this network, at either end. */
  lemma AckedWasSent(ca: Config, sa: Start, cb: Config, sb: Start, moves: seq<Move>)
    requires IsRun(Opened(ca, sa, cb, sb), moves)
    ensures
      var s := Run(Opened(ca, sa, cb, sb), moves);
      && (forall m :: m in s.toA ==> m.ack <= s.a.socket.tcb.highTx)
      && (forall m :: m in s.toB ==> m.ack <= s.b.socket.tcb.highTx)
  {
    hide Run, IsRun;
    ReliableDelivery(ca, sa, cb, sb, moves);
  }
}
