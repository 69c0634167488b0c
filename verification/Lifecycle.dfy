/** The connection states of TcpSocketBase from the handshake to CLOSED: every assignment to the state by a packet, a
    timer or the application. Connect and Listen, which start a new life, are not part of it. */
module Lifecycle {
  import opened TcpTypes
  import Connect

  datatype State =
    Closed | Listen | SynSent | SynRcvd | Established | CloseWait | LastAck | FinWait1 | FinWait2 | Closing | TimeWait

  /** PSH and URG are masked everywhere and left out. */
  datatype Flags = Flags(fin: bool, syn: bool, rst: bool, ack: bool, ece: bool, cwr: bool)

  const NONE := Flags(false, false, false, false, false, false)
  const FIN := NONE.(fin := true)
  const SYN := NONE.(syn := true)
  const RST := NONE.(rst := true)
  const ACK := NONE.(ack := true)
  const FIN_ACK := ACK.(fin := true)
  const SYN_ACK := ACK.(syn := true)

  function MaskEcn(f: Flags): Flags {
    f.(ece := false, cwr := false)
  }

  /** NextRxSequence, MaxRxSequence and the number recorded for the FIN, if any. History only: `data` is the end of the
      data received in order, which NextRxSequence passes when it takes up a FIN's number; `own` is the number the FIN
      recorded really has, that of the byte after its segment's data. */
  datatype Rx = Rx(next: nat, max: nat, fin: Option<nat>, data: nat, own: Option<nat>)

  predicate Finished(rx: Rx) {
    rx.fin.Some? && rx.fin.value < rx.next
  }

  /** The data in order ends exactly where the peer's FIN stands. */
  predicate InSequence(rx: Rx) {
    rx.own == Some(rx.data)
  }

  /** TcpRxBuffer::SetFinSequence: a FIN in sequence takes up its number. */
  function SetFin(rx: Rx, at: nat, own: nat): Rx {
    rx.(next := if rx.next == at then at + 1 else rx.next, fin := Some(at), own := Some(own))
  }

  /** TcpRxBuffer::Add for data at `from`: without a gap before it NextRxSequence reaches `to`, but nothing past a
      recorded FIN is taken, and meeting the FIN takes up its number. */
  function Take(rx: Rx, from: nat, to: nat): Rx {
    var end := if rx.fin.Some? then Min(to, rx.fin.value) else to;
    if rx.next < from || end <= rx.next then rx
    else rx.(next := if rx.fin == Some(end) then end + 1 else end, data := end)
  }

  function Restarted(rx: Rx, next: nat): Rx {
    rx.(next := next, data := next)
  }

  /** The assertions of the source that can fail, at lines 2505 and 1750. */
  datatype Failure = NotPeerOpen | NoAckFlag

  /** `dataTimer` says that ReTxTimeout may be pending: data may have been sent or acknowledged (lines 3041 and 3513).
      `halted` says which assertion failed. `trail` is every value the state was given, `fins` counts the FINs that left,
      `rstSent` says that a reset did, and `peerFin` that the peer's FIN and exactly the data before it had arrived: history
      only. */
  datatype Conn = Conn(
    state: State, endPoint: bool, rx: Rx, syn: Connect.SynTimer, shutdownSend: bool, shutdownRecv: bool,
    closeOnEmpty: bool, closeNotified: bool, dataRetrCount: nat, dataRetries: nat,
    dataTimer: bool, halted: Option<Failure>, trail: seq<State>, fins: nat, rstSent: bool, peerFin: bool)
  {
    const finSent: bool := 0 < fins
  }

  /** What the application does when it is called back. */
  datatype Reaction = Ignores | Closes | ShutsDown | StopsReading

  /** A callback, and what its calls would find: unread bytes in the Rx buffer, data past SND.NXT, an empty Tx buffer. */
  datatype Call = Call(reaction: Reaction, unread: bool, pending: bool, empty: bool)

  datatype Packet = Packet(flags: Flags, seqNo: nat, size: nat)

  /** The rest of the socket: is the Tx buffer `empty`; does the ACK number cover the SYN (`acksSyn`) or the FIN
      (`acksFin`); does the packet's data extend the Rx buffer, and where to (`taken`); does a segment that ends the Tx
      buffer leave while the ACK is processed (`drainedByAck`) or right after (`drained`); the application told of data,
      of the peer's close, of data at the end of a FIN_WAIT state, and the close that follows its own shutdown. */
  datatype Answers = Answers(now: nat, empty: bool, acksSyn: bool, acksFin: bool, taken: Option<nat>,
                             drainedByAck: bool, drained: bool, onData: Call, onClose: Call, onEnd: Call,
                             afterShutdown: Call)

  function Enter(c: Conn, state: State): Conn {
    if state == c.state then c else c.(state := state, trail := c.trail + [state])
  }

  function Halt(c: Conn, f: Failure): Conn {
    c.(halted := Some(f))
  }

  // Sending

  /** SendEmptyPacket with FIN. */
  function SendFin(c: Conn): Conn {
    if c.endPoint then c.(fins := c.fins + 1) else c
  }

  /** SendEmptyPacket with SYN: when the retries are used up the connection is closed. */
  function SendSyn(c: Conn, now: nat): Conn {
    if !c.endPoint then c
    else
      var c1 := c.(syn := Connect.Send(c.syn, now));
      if c.syn.count == 0 then Enter(c1, Closed).(endPoint := false) else c1
  }

  function SendRst(c: Conn): Conn {
    c.(rstSent := c.rstSent || c.endPoint, endPoint := false)
  }

  predicate Opening(state: State) {
    state == Closed || state == Listen || state == SynSent || state == SynRcvd
  }

  /** SendPendingData, up to the segment that ends the Tx buffer: with a close pending it carries the FIN. */
  function Drain(c: Conn, drained: bool): Conn {
    if !c.endPoint || Opening(c.state) then c else DrainWith(c.(dataTimer := true), drained)
  }

  function DrainWith(c: Conn, drained: bool): Conn {
    if !drained || !c.closeOnEmpty then c
    else
      var c1 := c.(fins := c.fins + 1);
      if c.state == Established then Enter(c1, FinWait1)
      else if c.state == CloseWait then Enter(c1, LastAck)
      else c1
  }

  // Closing

  function CloseAndNotify(c: Conn): Conn {
    Enter(c, Closed).(closeNotified := true, endPoint := false)
  }

  function DoClose(c: Conn): Conn {
    match c.state
    case SynRcvd | Established => Enter(SendFin(c), FinWait1)
    case CloseWait => Enter(SendFin(c), LastAck)
    case SynSent | Closing => CloseAndNotify(SendRst(c))
    case Listen => CloseAndNotify(c)
    case _ => c
  }

  function Close(c: Conn, unread: bool, pending: bool): Conn {
    if unread then SendRst(c)
    else if pending then c.(closeOnEmpty := true)
    else DoClose(c)
  }

  function ShutdownSend(c: Conn, empty: bool): Conn {
    var c1 := c.(shutdownSend := true, closeOnEmpty := true);
    if !empty then c1
    else if c.state == Established then Enter(SendFin(c1), FinWait1)
    else if c.state == CloseWait then Enter(SendFin(c1), LastAck)
    else c1
  }

  function ShutdownRecv(c: Conn): Conn {
    c.(shutdownRecv := true)
  }

  function React(c: Conn, call: Call): Conn {
    match call.reaction
    case Ignores => c
    case Closes => Close(c, call.unread, call.pending)
    case ShutsDown => ShutdownSend(c, call.empty)
    case StopsReading => ShutdownRecv(c)
  }

  function EnterTimeWait(c: Conn): Conn {
    Enter(c, TimeWait).(closeNotified := true)
  }

  predicate PeerOpen(state: State) {
    state == Established || state == SynRcvd || state == FinWait1 || state == FinWait2
  }

  function TellOfClose(c: Conn, a: Answers): Conn {
    if !c.closeNotified then React(c, a.onClose).(closeNotified := true) else c
  }

  /** CLOSE_WAIT, the application told, its own close if it had shut down. */
  function NotifyPeerClose(c: Conn, a: Answers): Conn {
    var c1 := TellOfClose(c, a);
    var c2 := if c1.shutdownSend then Close(c1, a.afterShutdown.unread, a.afterShutdown.pending) else c1;
    if c2.state == LastAck then c2.(dataRetrCount := c2.dataRetries) else c2
  }

  /** DoPeerClose asserts that the connection was open in the peer's direction. */
  function DoPeerClose(c: Conn, a: Answers): Conn {
    if !PeerOpen(c.state) then Halt(c, NotPeerOpen) else NotifyPeerClose(Enter(c, CloseWait), a)
  }

  // Receiving

  function WithRx(c: Conn, rx: Rx): Conn {
    c.(rx := rx, peerFin := c.peerFin || InSequence(rx))
  }

  /** The Rx buffer after a packet's data. */
  function Taken(rx: Rx, p: Packet, a: Answers): Rx {
    if a.taken.None? || p.size == 0 then rx else Take(rx, p.seqNo, a.taken.value)
  }

  /** The data of a packet goes into the Rx buffer; when it fills the last gap before the FIN, the peer has closed. */
  function ReceivedData(c: Conn, p: Packet, a: Answers): Conn {
    var rx := Taken(c.rx, p, a);
    if rx.next <= c.rx.next then c
    else
      var c1 := WithRx(c, rx);
      var c2 := if c1.shutdownRecv then c1 else React(c1, a.onData);
      if Finished(rx) && !p.flags.fin then DoPeerClose(c2, a) else c2
  }

  function PeerClose(c: Conn, p: Packet, a: Answers): Conn {
    if p.seqNo < c.rx.next || p.seqNo > c.rx.max then c
    else
      var c1 := WithRx(c, SetFin(c.rx, p.seqNo + p.size, p.seqNo + p.size));
      var c2 := if p.size > 0 then ReceivedData(c1, p, a) else c1;
      if c2.halted.Some? || !Finished(c2.rx) then c2
      else if c2.state == FinWait1 then Enter(c2, Closing)
      else DoPeerClose(c2, a)
  }

  /** ReceivedAck asserts the ACK flag. */
  function ReceivedAck(c: Conn, p: Packet, a: Answers): Conn {
    if !p.flags.ack then Halt(c, NoAckFlag)
    else
      var c1 := Drain(c, a.drainedByAck);
      var c2 := if p.size > 0 then ReceivedData(c1, p, a) else c1;
      if c2.halted.Some? then c2 else Drain(c2, a.drained)
  }

  function Refuse(c: Conn, p: Packet): Conn {
    CloseAndNotify(if MaskEcn(p.flags) != RST then SendRst(c) else c)
  }

  /** `inWindow`: the ACK number lies between SND.UNA and the high mark. */
  function ProcessEstablished(c: Conn, p: Packet, inWindow: bool, a: Answers): Conn {
    var f := MaskEcn(p.flags);
    if f == ACK then (if inWindow then ReceivedAck(c, p, a) else c)
    else if f == SYN || f == SYN_ACK then c
    else if f == FIN || f == FIN_ACK then PeerClose(c, p, a)
    else if f == NONE then
      var c1 := ReceivedData(c, p, a);
      if c1.halted.None? && Finished(c1.rx) then PeerClose(c1, p, a) else c1
    else Refuse(c, p)
  }

  function ProcessSynSent(c: Conn, p: Packet, a: Answers): Conn {
    var f := p.flags;
    if f == NONE then ReceivedData(Enter(c, Established), p, a)
    else if f.ack && !f.syn then c
    else if f.syn && !f.ack then
      SendSyn(WithRx(Enter(c, SynRcvd), Restarted(c.rx, p.seqNo + 1)).(syn := c.syn.(count := c.syn.retries)), a.now)
    else if f.syn && a.acksSyn then
      Drain(WithRx(Enter(c, Established), Restarted(c.rx, p.seqNo + 1)), a.drained)
    else CloseAndNotify(if !f.rst then SendRst(c) else c)
  }

  function ProcessSynRcvd(c: Conn, p: Packet, a: Answers): Conn {
    var f := MaskEcn(p.flags);
    if f == NONE || (f == ACK && a.acksSyn) then ReceivedAck(Enter(c, Established), p, a)
    else if f == SYN then SendSyn(WithRx(c, Restarted(c.rx, p.seqNo + 1)), a.now)
    else if f == FIN_ACK then (if p.seqNo == c.rx.next then PeerClose(c, p, a) else c)
    else Refuse(c, p)
  }

  /** The peer's FIN ends one of the FIN_WAIT states. */
  function EndFinWait(c: Conn, a: Answers): Conn {
    if c.state == FinWait2 then EnterTimeWait(c)
    else if a.empty && a.acksFin then EnterTimeWait(Enter(c, Closing))
    else Enter(c, Closing)
  }

  /** The end of ProcessWait, with the application called back. */
  function LeaveFinWait(c: Conn, a: Answers): Conn {
    if (c.state == FinWait1 || c.state == FinWait2) && Finished(c.rx) then
      var c1 := EndFinWait(c, a);
      if c1.shutdownRecv then c1 else React(c1, a.onEnd)
    else c
  }

  function ProcessWait(c: Conn, p: Packet, a: Answers): Conn {
    var f := MaskEcn(p.flags);
    if p.size > 0 && !f.ack then LeaveFinWaitUnlessHalted(ReceivedData(c, p, a), a)
    else if f == ACK then
      var c1 := ReceivedAck(c, p, a);
      LeaveFinWaitUnlessHalted(if c1.state == FinWait1 && a.empty && a.acksFin then Enter(c1, FinWait2) else c1, a)
    else if f == FIN || f == FIN_ACK then
      var c1 := if f.ack then ReceivedAck(c, p, a) else c;
      LeaveFinWaitUnlessHalted(if c1.halted.Some? then c1 else WithRx(c1, SetFin(c1.rx, p.seqNo, p.seqNo + p.size)), a)
    else if f == SYN || f == SYN_ACK then c
    else Refuse(c, p)
  }

  function LeaveFinWaitUnlessHalted(c: Conn, a: Answers): Conn {
    if c.halted.Some? then c else LeaveFinWait(c, a)
  }

  /** Here the ECN flags are not masked: an ACK with ECE is refused. */
  function ProcessClosing(c: Conn, p: Packet): Conn {
    if p.flags == ACK then (if p.seqNo == c.rx.next then EnterTimeWait(c) else c)
    else CloseAndNotify(if p.flags == FIN || p.flags == FIN_ACK || p.flags == RST then c else SendRst(c))
  }

  function ProcessLastAck(c: Conn, p: Packet, a: Answers): Conn {
    if p.flags == NONE then ReceivedData(c, p, a)
    else if p.flags == ACK then (if p.seqNo == c.rx.next then CloseAndNotify(c) else c)
    else if p.flags == FIN then SendFin(c)
    else CloseAndNotify(if p.flags == FIN_ACK || p.flags == RST then c else SendRst(c))
  }

  predicate OutOfRange(state: State, rx: Rx, head: nat, tail: nat) {
    match state
    case Listen | SynSent | SynRcvd => false
    case LastAck | Closing | CloseWait => rx.next != head
    case _ => tail < rx.next || rx.max <= head
  }

  /** ForwardUp reaches the socket only through its end point. */
  function Receive(c: Conn, p: Packet, inWindow: bool, a: Answers): Conn {
    if !c.endPoint || (p.size > 0 && OutOfRange(c.state, c.rx, p.seqNo, p.seqNo + p.size)) then c
    else
      match c.state
      case Established => ProcessEstablished(c, p, inWindow, a)
      case SynSent => ProcessSynSent(c, p, a)
      case SynRcvd => ProcessSynRcvd(c, p, a)
      case FinWait1 | FinWait2 | CloseWait => ProcessWait(c, p, a)
      case Closing => ProcessClosing(c, p)
      case LastAck => ProcessLastAck(c, p, a)
      case Listen | TimeWait | Closed => c
  }

  // Timers

  function LastAckTimeout(c: Conn): Conn {
    if c.state != LastAck then c
    else if c.dataRetrCount == 0 then c.(endPoint := false)
    else SendFin(c.(dataRetrCount := c.dataRetrCount - 1))
  }

  /** The cases of ReTxTimeout that concern the state: nothing left in the Tx buffer, or no retries left; `drained`
      covers the data it sends otherwise. */
  function ReTxTimeout(c: Conn, a: Answers): Conn {
    if c.state == Closed || c.state == TimeWait then c
    else if c.state == SynSent then SendSyn(c, a.now)
    else if a.empty then (if c.state == FinWait1 || c.state == Closing then SendFin(c) else c)
    else RetryData(c, a)
  }

  function RetryData(c: Conn, a: Answers): Conn {
    if c.dataRetrCount == 0 then c.(endPoint := false)
    else Drain(c.(dataRetrCount := c.dataRetrCount - 1), a.drained)
  }

  datatype Event =
    | Arrival(packet: Packet, inWindow: bool, answers: Answers)
    | AppClose(unread: bool, pending: bool)
    | AppShutdown(empty: bool)
    | AppStopsReading
    | SendPending(drained: bool)
    | SynTimer(now: nat)
    | FinTimer
    | DataTimer(timeout: Answers)
    | LastAckTimer
    | TimeWaitTimer

  function Step(c: Conn, e: Event): Conn {
    if c.halted.Some? then c
    else
      match e
      case Arrival(p, inWindow, a) => Receive(c, p, inWindow, a)
      case AppClose(unread, pending) => Close(c, unread, pending)
      case AppShutdown(empty) => ShutdownSend(c, empty)
      case AppStopsReading => ShutdownRecv(c)
      case SendPending(drained) => Drain(c, drained)
      case SynTimer(now) => SendSyn(c, now)
      case FinTimer => SendFin(c)
      case DataTimer(a) => if c.dataTimer then ReTxTimeout(c, a) else c
      case LastAckTimer => LastAckTimeout(c)
      case TimeWaitTimer => if c.state == TimeWait then CloseAndNotify(c) else c
  }

  function Run(c: Conn, es: seq<Event>): Conn {
    if es == [] then c else Step(Run(c, es[..|es| - 1]), es[|es| - 1])
  }

  // The diagram

  /** Every change of state the code can make. From the FIN_WAIT states to CLOSE_WAIT there is no arrow in RFC 793. */
  predicate Arrow(from: State, to: State) {
    match from
    case Listen => to == Closed
    case SynSent => to == SynRcvd || to == Established || to == Closed
    case SynRcvd => to == Established || to == FinWait1 || to == CloseWait || to == Closed
    case Established => to == FinWait1 || to == CloseWait || to == Closed
    case FinWait1 => to == FinWait2 || to == Closing || to == CloseWait || to == Closed
    case FinWait2 => to == TimeWait || to == CloseWait || to == Closed
    case CloseWait => to == LastAck || to == Closed
    case Closing => to == TimeWait || to == Closed
    case LastAck => to == Closed
    case TimeWait => to == Closed
    case Closed => false
  }

  function Rank(s: State): (r: nat)
    ensures r <= 7
  {
    match s
    case Listen | SynSent => 0
    case SynRcvd => 1
    case Established => 2
    case FinWait1 => 3
    case FinWait2 => 4
    case CloseWait | Closing => 5
    case LastAck | TimeWait => 6
    case Closed => 7
  }

  /** The trail starts at the state the run began in and follows the arrows to the present one. */
  ghost predicate LeadsTo(trail: seq<State>, state: State) {
    && trail != [] && trail[|trail| - 1] == state
    && forall i :: 0 < i < |trail| ==> Arrow(trail[i - 1], trail[i])
  }

}
