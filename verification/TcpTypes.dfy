/** The vocabulary shared by the congestion controller and the socket: the enumerations and the
    transmission control block of tcp-socket-state.h. Sequence numbers are unbounded integers. */
module TcpTypes {

  /** Times are signed 64-bit nanoseconds in the simulator; `TIME_MAX` is `Time::Max ()`. */
  const TIME_MAX: nat := 0x7FFF_FFFF_FFFF_FFFF

  type Time = t: int | 0 <= t <= TIME_MAX

  const MICROSECOND: nat := 1_000
  const SECOND: nat := 1_000_000_000

  /** One past the largest unsigned 32-bit value: what an unsigned subtraction wraps around. */
  const UINT32_SPAN: nat := 0x1_0000_0000

  /** The source asserts that the segment size is positive. */
  type Positive = n: int | 1 <= n witness 1

  datatype Option<+T> = None | Some(value: T)

  /** CA_CWR is never entered by this code. */
  datatype CongState = Open | Disorder | Recovery | Loss

  datatype EcnState = EcnDisabled | EcnIdle | CeReceived | SendingEce | EceReceived | CwrSent

  /** The record that the socket and the congestion controller both read and write. */
  datatype Tcb = Tcb(cWnd: nat, ssThresh: nat, segmentSize: Positive, lastAcked: nat, cong: CongState, ecn: EcnState,
                     highTx: nat, nextTx: nat, lastRtt: Time, rcvTtl: nat)

  function Min(a: int, b: int): int {
    if a < b then a else b
  }

  function Max(a: int, b: int): int {
    if a < b then b else a
  }
}
