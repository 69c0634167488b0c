# TCP engine and Swift congestion control: a verified model

The repository changes the TCP of a network simulator: `TcpSocketBase` (acknowledgment processing, the send loop,
timers, the connection lifecycle) and a new congestion controller, `TcpSwift`. The two share the transmission control
block. This project models both and proves what their comments and assertions rely on.

## How the model is built

| file | content |
|---|---|
| `TcpTypes.dfy`, `Arithmetic.dfy` | shared vocabulary; products, floors, powers of two |
| `SwiftMath.dfy` | the arithmetic of one Swift adjustment |
| `Swift.dfy`, `SwiftController.dfy` | the controller as functions with a history of what it did; the class updated in place |
| `SwiftEffects.dfy` | the window every call leaves, and when a cycle ends |
| `RttHistory.dfy` | the RTT history deque and Karn's rule |
| `Sender.dfy` | the sending half of an established socket as a function of state, event and answers |
| `SenderInvariants.dfy` | what every event keeps |
| `SenderTheorems.dfy` | what holds after every run: order, episodes, ECN, Karn, Swift, bytes in flight |
| `SenderWindows.dfy`, `SenderTimers.dfy` | window and threshold over runs; timeouts in silence and what they send |
| `SenderAssertions.dfy`, `SenderPeerWindow.dfy` | the assertions of the send loop and of SendDataPacket that can fail |
| `SenderMachine.dfy`, `SenderEcn.dfy` | exactly which ACKs count, start and end an episode; exactly when ECN reacts |
| `SenderEffects.dfy`, `SenderReductions.dfy`, `SenderCycles.dfy` | what each ACK and timeout does to timer, windows and Swift's cycles |
| `SenderWait.dfy` | the ACKs of the states after ESTABLISHED |
| `TcpSocketBase.dfy` | the same sender as a class updated in place, with the source's assertions at their places |
| `Network.dfy`, `NetworkDelivery.dfy` | two such endpoints over a network that loses, duplicates and reorders; which bytes an arrival adds |
| `WindowScale.dfy`, `Connect.dfy` | window scaling; the retransmission of SYNs |
| `Lifecycle.dfy` | the connection states as functions of packet, timer, application and answers |
| `LifecycleFrames.dfy` | what each operation may touch |
| `LifecycleInvariants.dfy` | the diagram of states over every life |
| `LifecycleTheorems.dfy`, `LifecycleOrder.dfy` | what the states say about the peer's FIN; when DoPeerClose's assertion fails |
| `LifecycleTransitions.dfy`, `LifecycleReplies.dfy` | which packet, call or timer takes each arrow; what is dropped, answered and told |
| `TcpConnection.dfy` | the connection as a class updated in place, each event with its promises |

The classes have a ghost `View()`. A method of the sender says that the new view is the function of the old one, and
the theorems named with it are about that function; an event of the connection states the promises themselves.

Code that is not in this repository answers through parameters: the Tx buffer's scoreboard, the Rx buffer, TcpNewReno,
the recovery ops, the RTT estimator, the clock, the application. Each answer is first fitted to the contract of the code
it stands for, so that any answer is allowed:

- Tx buffer: `DiscardUpTo` sets the head; `MarkHeadAsLost` makes the head lost and not retransmitted, until it is copied
  again or the buffer is updated; `NextSeg` names a lost head not retransmitted first, otherwise a segment already sent,
  new data at the high mark, or nothing; a copied segment is not empty, has at most the requested size, does not mix
  sent and unsent data, is a retransmission exactly when it starts below the high mark, and adds its size to the bytes
  in flight unless it was already counted as retransmitted; every other scoreboard update only lowers them, and
  `SetSentListLost` zeroes them. A SACK block reports data above the ACK it comes with.
- The recovery ops leave a window of at least a segment, TcpNewReno never shrinks it when it grows it, and its
  `ReduceCwnd` never enlarges it.
- Rx buffer: `Add` takes bytes below MaxRxSequence that it lacks and nothing past a recorded FIN, and NextRxSequence
  moves to the first byte missing, past the FIN's number when it is reached.
- The application answers each callback separately: it ignores it, closes, shuts down or stops reading.

Sequence numbers and windows are unbounded integers; the only 32-bit effect modelled is the subtraction in
`GetSsThresh`. Times are natural nanoseconds and Swift's doubles are exact rationals over them.

## Findings

- Swift gives a larger additive step to a larger delay (`SwiftMath.IncreaseMonotone`), and a base RTT of a second or
  more makes every sample count as congested (`SwiftMath.BaseSampleUnderTargetIff`). The window formula of the
  repository's README is not the one implemented.
- With beta above 5 a run can leave less than a segment of window, and then the unsigned subtraction in `GetSsThresh`
  wraps (`SenderWindows.SlowRunLosesWindow`); with beta up to 5 no run without an ECN echo does
  (`SenderWindows.AlwaysUsableIff`).
- A timeout asks Nagle and silly-window avoidance about data already sent. With Nagle on and less than a segment
  outstanding it takes a retry, doubles the timer and sends nothing (`SenderTimers.TimeoutResendsIff`), so a lost last
  segment is never sent again (`SenderTimers.NagleStalls`, `SenderTimers.LostTailIsNeverResent`).
- The assertion at line 2964, that new data stays in the peer's window, fails by the SYN's one number after a passive
  open, which leaves the highest ACK at 0 (`SenderPeerWindow.FirstFlightOverruns`; exactly when:
  `SenderPeerWindow.PeerWindowAssertionIff`, `SenderPeerWindow.StaysInPeerWindowIff`).
- In CLOSE_WAIT and the FIN_WAIT states the range test of lines 1470-1497 is missing: an ACK past the high mark is taken
  up, SND.UNA and SND.NXT pass the high mark, and buffered data below it is dropped unsent (exactly when:
  `SenderWait.AnyAckOrderIff`). The ACK of the FIN is such an ACK.
- The assertion at line 1750, that ReceivedAck sees an ACK flag, fails for bare data in SYN_RCVD
  (`LifecycleOrder.AckAssertionIff`).
- A CE mark or a CWR flag from the peer turns ECN on in a connection that never negotiated it
  (`SenderWindows.EcnStaysOffIff`).
- The assertion at line 3258, that nothing is sent in DISORDER without SACK or limited transmit, can fail
  (`SenderAssertions.DisorderAssertionFires`), exactly as `SenderAssertions.DisorderAssertionIff` says.
- A retransmission that reaches into a second, unmarked history entry lets an RTT be measured on bytes sent twice
  (`RttHistory.StraddlingSampleExample`); only such a retransmission does (`RttHistory.KarnStepIff`).
- A client that offered window scaling to a peer without it goes on shifting its windows
  (`WindowScale.OneSidedScalingShrinks`).
- Line 2353 records a FIN at its segment's first byte and without a range test, where line 2477 records it after the
  data. So a FIN that carries data, or an old one, ends a FIN_WAIT state out of sequence
  (`LifecycleTheorems.FinWithMissingData`, `LifecycleTheorems.OldFinEnds`; exactly when:
  `LifecycleTheorems.FinInSequenceIff`), and a second FIN ahead of a gap makes the assertion at line 2505 fail
  (`LifecycleOrder.RenumberedFinFails`; exactly when: `LifecycleOrder.PeerCloseAssertionIff`).
- A FIN_WAIT state can fall back to CLOSE_WAIT (exactly when: `LifecycleTheorems.FinWaitIff`).
- In CLOSING and LAST_ACK the ECN flags are not masked, so an ACK with ECE or CWR resets the connection
  (`LifecycleTheorems.EcnAckResetsIff`).
- An application that closes with unread data resets the connection without changing its state
  (`LifecycleTheorems.UnreadCloseIff`).

## Model

| member | source | states |
|---|---|---|
| SwiftMath.DecreaseBounds | internet-modifications/tcp-swift.cc:177-190 | For 0 < target <= delay and a window of at least 1: the new window lies between floor(cWnd * max(1, 10 - beta) / 10) and cWnd, is never zero, and equals cWnd when the delay sits on the target |
| SwiftMath.DecreaseAntitone | internet-modifications/tcp-swift.cc:177-190 | A longer delay never leaves a larger window |
| SwiftMath.DecreaseKeepsSegmentIff | internet-modifications/tcp-swift.cc:177-190 | Over every window of two segments, base RTT, received TTL and delay at or over their target: a decrease leaves a segment, if and only if beta <= 5 or segments are single bytes |
| SwiftMath.DecreaseLosesSegment | internet-modifications/tcp-swift.cc:177-190 | The failing input for beta >= 6: a base RTT of 1 microsecond over one hop, whose target is 6 microseconds, and any delay of 72 or more |
| SwiftMath.IncreaseBounds | internet-modifications/tcp-swift.cc:152-170 | The additive step is between 1 and max(1, 5 alpha) segments, and at least alpha once the base RTT is a microsecond and the sample is not below it |
| SwiftMath.IncreaseMonotone | internet-modifications/tcp-swift.cc:152-170 | The step grows with the delay: under target, a slower path is given the larger increase |
| SwiftMath.BaseSampleUnderTargetIff | internet-modifications/tcp-swift.cc:231-259 | A sample equal to the base RTT is under target exactly when the base is below one second, and then the target clears it by 5 to 315 microseconds for every received TTL |
| SwiftEffects.TargetCountsHops | internet-modifications/tcp-swift.cc:231-259 | A packet sent with a TTL of 64 that crossed n hops is allowed n times 5 microseconds over the base RTT; any other TTL counts as one hop; without a usable base the target is 20 microseconds |
| Swift.GetSsThreshIntendedIff | internet-modifications/tcp-swift.cc:225-228 | The unsigned subtraction gives the intended threshold exactly when the window is at least a segment, or the old threshold was already at two segments |
| Swift.PktsAckedKeeps | internet-modifications/tcp-swift.cc:74-86 | A sample keeps: base RTT = least sample ever, count = samples since the last cycle or enabling, last RTT = latest sample since enabling |
| Swift.CongestionStateSetKeeps | internet-modifications/tcp-swift.cc:89-115 | Enabling and disabling keep the same correspondence; enabling records SND.NXT as the next edge |
| Swift.IncreaseWindowKeeps | internet-modifications/tcp-swift.cc:118-216 | A cycle that ends is justified: its ACK covers the recorded edge, and an adjustment used at least three samples, the latest and the least |
| Swift.IncreaseWindowBounds | internet-modifications/tcp-swift.cc:118-216 | From cWnd >= 1 segment and ssThresh >= 2 segments, with beta <= 5 or one-byte segments, no call leaves less than a segment or lowers the threshold |
| SwiftEffects.CycleAdjusts | internet-modifications/tcp-swift.cc:145-194 | The window after a cycle of three samples or more, at or past the threshold: under target cWnd + n * segmentSize with n the scaled step, pinned by n * base <= alpha * delay < (n + 1) * base between 1 and 5 alpha; at or over target the floor of the scaled window; the threshold is max(old, 3/4 of the new window) |
| SwiftEffects.OtherwiseNewReno | internet-modifications/tcp-swift.cc:118-216 | Every other call: NewReno's growth while Swift is off, below the threshold and after a cycle of at most two samples; nothing at or past the threshold within a cycle |
| SwiftEffects.CycleEndsIff | internet-modifications/tcp-swift.cc:126-211 | A cycle ends exactly when Swift is on and the edge is acknowledged, and records SND.NXT, with counter and minimum started over |
| SwiftEffects.EnablingStartsCycle | internet-modifications/tcp-swift.cc:89-115 | Entering OPEN starts a cycle at SND.NXT without samples, and no cycle ends until that number is acknowledged |
| Swift.LeastSampleIsMinimum | internet-modifications/tcp-swift.cc:84 | The least-sample function is a lower bound of all samples and is one of them |
| Swift.LatestSampleIsMeasured | internet-modifications/tcp-swift.cc:82-96 | With one sample since the last reset the last RTT is a sample that was taken, and positive, not Time::Max |
| Swift.AdjustmentsAtMostCycles | internet-modifications/tcp-swift.cc:126-211 | The window is adjusted at most as often as cycles end |
| SwiftController.TcpSwift.constructor | internet-modifications/tcp-swift.cc:34-46 | The controller starts enabled with no sample |
| SwiftController.TcpSwift.PktsAcked | internet-modifications/tcp-swift.cc:74-86 | A sample updates the state as Swift.PktsAcked does: zero samples are ignored, and the invariant is kept |
| SwiftController.TcpSwift.EnableSwift | internet-modifications/tcp-swift.cc:89-96 | Edge at SND.NXT, counters and both short-term RTTs reset, base RTT kept |
| SwiftController.TcpSwift.CongestionStateSet | internet-modifications/tcp-swift.cc:105-115 | Enabled exactly on CA_OPEN, disabled otherwise, invariant kept |
| SwiftController.TcpSwift.IncreaseWindow | internet-modifications/tcp-swift.cc:118-216 | The nested cases of the per-RTT cycle, with window and threshold as Swift.IncreaseWindow gives them, invariant kept (pinned by SwiftEffects.CycleAdjusts, OtherwiseNewReno and CycleEndsIff) |
| SwiftController.TcpSwift.Adjust | internet-modifications/tcp-swift.cc:145-192 | The AIMD step: increase under target, decrease at or over it (pinned by SwiftEffects.CycleAdjusts) |
| SwiftController.TcpSwift.GetSsThresh | internet-modifications/tcp-swift.cc:225-228 | Threshold with the 32-bit wrap-around of the subtraction; never under two segments |
| SwiftController.TcpSocketState.constructor | internet-modifications/tcp-socket-state.h:171-204 | A control block starts with SND.NXT, the high mark and the last ACK at one number, state OPEN, ECN disabled |
| RttHistory.RttLog.UpdateRttHistory | internet-modifications/tcp-socket-base.cc:3082-3105 | New data is appended; a retransmission marks and re-measures the first entry holding its first byte |
| RttHistory.RttLog.EstimateRtt | internet-modifications/tcp-socket-base.cc:3441-3477 | Only the unmarked front entry can be timed, only by an ACK covering it; the front is popped while it ends at or below the ACK |
| RttHistory.RemainingExact | internet-modifications/tcp-socket-base.cc:3467-3477 | On a sorted history exactly the entries ending at or below the ACK are removed |
| RttHistory.SortedStepIff | internet-modifications/tcp-socket-base.cc:3082-3105 | Every event keeps the history sorted and disjoint; a retransmission does so if and only if it ends before the entry after the one it starts in |
| RttHistory.SortedRun | internet-modifications/tcp-socket-base.cc:3082-3105 | So every run whose retransmissions end there keeps it sorted |
| RttHistory.KarnStepIff | internet-modifications/tcp-socket-base.cc:3082-3105 | Sending, acknowledging and timing out keep every timeable byte sent exactly once; a retransmission keeps this if and only if it touches no unmarked entry other than the one it marks |
| RttHistory.KarnRun | internet-modifications/tcp-socket-base.cc:3082-3105 | So does every run whose retransmissions spare those entries, however they overlap marked ones |
| RttHistory.OldestIsTimedIff | internet-modifications/tcp-socket-base.cc:3441-3477 | An ACK yields a sample exactly when it covers the oldest segment, that was never sent again, and time has passed since it left |
| RttHistory.SamplesObeyKarn | internet-modifications/tcp-socket-base.cc:3450-3465 | Karn (RFC 6298 section 3) over those runs: the ACK that yields a sample covers an entry no byte of which was sent twice |
| RttHistory.TimeoutStartsOver | internet-modifications/tcp-socket-base.cc:3629-3630 | After a timeout, whatever follows, the history only ever speaks of data first sent after it |
| RttHistory.StraddlingSampleExample | internet-modifications/tcp-socket-base.cc:3094-3104 | A retransmission across two entries defeats the rule: a concrete run times bytes that were sent twice |
| SenderInvariants.SendChosenInFlight | internet-modifications/tcp-socket-base.cc:3191-3214 | A segment fits the window it was chosen for; sending it strictly raises the bytes in flight and opens no window |
| SenderInvariants.SendDataKeeps | internet-modifications/tcp-socket-base.cc:2946-3080 | SendDataPacket keeps the sequence order, the ECN record and the RTT history, and moves only the high mark |
| SenderInvariants.SendLoopKeeps | internet-modifications/tcp-socket-base.cc:3130-3249 | So does the whole send loop, which never enlarges the window and sends only between SND.UNA and the new high mark |
| SenderInvariants.DoRetransmitKeeps | internet-modifications/tcp-socket-base.cc:3760-3793 | A retransmission with data outstanding pushes SND.NXT back no further than SND.UNA and keeps the order |
| SenderInvariants.EnterRecoveryKeeps | internet-modifications/tcp-socket-base.cc:1580-1636 | From outside an episode, with data outstanding, fast recovery starts with the recovery point ahead of SND.UNA and behind the barrier of all earlier ones (which point: SenderMachine.EntryAtHighMark) |
| SenderInvariants.DupAckKeeps | internet-modifications/tcp-socket-base.cc:1638-1742 | Every duplicate ACK keeps the congestion machine, whichever of the routes into recovery it takes |
| SenderInvariants.AdvanceUnaKeeps | internet-modifications/tcp-socket-base.cc:1885-2090 | Every branch taken by an ACK that advances SND.UNA brings SND.NXT back up to it, keeps the machine and accounts for the bytes |
| SenderInvariants.PartialAckKeeps | internet-modifications/tcp-socket-base.cc:1925-1969 | A partial ACK retransmits, samples and restores the order without leaving recovery |
| SenderInvariants.FullAckKeeps | internet-modifications/tcp-socket-base.cc:1989-2090 | An ACK past any recovery point ends the episode with the recovery point inactive |
| SenderInvariants.CountAckedKeeps | internet-modifications/tcp-socket-base.cc:1889-1899 | Whole segments and remainder account for every byte acknowledged, the remainder staying under a segment |
| SenderInvariants.ProcessAckKeeps | internet-modifications/tcp-socket-base.cc:1814-2091 | ProcessAck entered with the Tx buffer trimmed restores the whole invariant (what counts as a duplicate: SenderMachine.DuplicateCountsIff) |
| SenderInvariants.ReceivedAckKeeps | internet-modifications/tcp-socket-base.cc:1745-1812 | An ACK in range restores the invariant with SND.UNA at the ACK number |
| SenderInvariants.BackoffKeeps | internet-modifications/tcp-socket-base.cc:3589-3647 | A timeout leaves LOSS with the recovery point at the high mark, no bytes in flight and a window of one segment |
| SenderInvariants.ReTxTimeoutKeeps | internet-modifications/tcp-socket-base.cc:3537-3664 | The timeout as a whole keeps the invariant and does not move SND.UNA |
| SenderInvariants.StepKeeps | internet-modifications/tcp-socket-base.cc:1278-1535 | Every event of an established sender keeps the invariant, moves SND.UNA only to an ACK number that arrived, and sends only data between SND.UNA and the high mark |
| SenderInvariants.RunKeeps | internet-modifications/tcp-socket-base.cc:1278-1535 | Hence every run does |
| SenderInvariants.InitialInv | internet-modifications/tcp-socket-base.cc:2170-2202 | The state either end of the handshake leaves satisfies the invariant, whatever RTT, TTL and highest ACK it recorded |
| SenderMachine.DuplicateCountsIff | internet-modifications/tcp-socket-base.cc:1638-1742 | From OPEN or DISORDER an ACK in range raises the duplicate count by one, and leaves OPEN, exactly when it carries new SACK information about outstanding data (without SACK: when it repeats SND.UNA); fast recovery starts exactly when that count reaches the threshold or the scoreboard says lost, recorded at the ACK's SND.UNA with the high mark as recovery point |
| SenderMachine.EpisodeEndsIff | internet-modifications/tcp-socket-base.cc:1925-2065 | RECOVERY ends exactly on an ACK at or past the recovery point, LOSS on one that also moves SND.UNA; the count starts over then, and on ACKs of new data that are no duplicates |
| SenderMachine.OtherEventsMachine | internet-modifications/tcp-socket-base.cc:3580-3644 | A timeout that takes a retry starts LOSS with the recovery point at the high mark and no duplicates; no other event but an ACK in range touches the congestion machine |
| SenderMachine.EntryAtHighMark | internet-modifications/tcp-socket-base.cc:1607-1613 | Any event that goes into RECOVERY adds exactly one entry, with SND.UNA and, as recovery point, the high mark of that moment; no other event adds one |
| SenderMachine.RecoveriesApart | internet-modifications/tcp-socket-base.cc:1607-1613 | RFC 6675 section 5.1 over every run: when a fast recovery starts, every byte sent before an earlier one started is acknowledged |
| SenderMachine.SwiftRunsInOpen | internet-modifications/tcp-swift.cc:105-115 | After every run Swift is switched on exactly in OPEN |
| SenderEcn.AckReaction | internet-modifications/tcp-socket-base.cc:1766-1779 | An ACK in range with ECE that moves SND.UNA while ECN is on leaves the echo at its number, pending; without ECE it clears a pending one; new data that leaves with it while an echo newer than the last reduction is pending cuts the window, once, and leaves ECN_CWR_SENT; otherwise no reduction is recorded |
| SenderEcn.OtherReaction | internet-modifications/tcp-socket-base.cc:2987-2999 | Every other event: marks and CWR flags set the state, an empty ACK passes a mark on, and only the first new data sent while a newer echo is pending adds a reduction |
| SenderEcn.EchoThenCut | internet-modifications/tcp-socket-base.cc:1766-1779 | An echo of data newer than the last reduction is pending until new data leaves; the first does cut the window, exactly once, and then nothing is pending |
| SenderEffects.HeaderTaken | internet-modifications/tcp-socket-base.cc:4190-4216 | Any arriving header: the peer's window is taken exactly when its ACK or sequence number is the highest yet or it widens the window, the highest numbers are kept, and the RTT of a timed segment is estimated |
| SenderEffects.NewAckRestarts | internet-modifications/tcp-socket-base.cc:3493-3534 | An ACK that moves SND.UNA gives all retries back and sets the timer anew, unless it leaves the sender in RECOVERY and is not the first partial one |
| SenderEffects.OldAckLeavesTimer | internet-modifications/tcp-socket-base.cc:1860-1884 | Any other ACK in range leaves retries and timer, unless it times a segment or answers data |
| SenderEffects.OtherEventsRest | internet-modifications/tcp-socket-base.cc:3580-3627 | Every other event: a timeout that takes a retry doubles the timer up to 60 seconds, an empty ACK sets it anew, and the retries move only with a timeout |
| SenderEffects.SwiftHears | internet-modifications/tcp-socket-base.cc:1949-2059 | Swift is told of the latest RTT by every ACK in range except one that finds nothing outstanding and one in DISORDER of fewer segments than duplicates were counted; the base RTT is then the least of both |
| SenderEffects.DuplicateStandsForSack | internet-modifications/tcp-socket-base.cc:1674-1742 | Without SACK a duplicate ACK adds its guessed SACK block in RECOVERY, on entering it, and in DISORDER with limited transmit; in LOSS it adds none |
| SenderCycles.OpenAckTurnsCycle | internet-modifications/tcp-swift.cc:89-131 | An ACK of new data that leaves the sender in OPEN goes on with Swift's cycle, a sample more, unless it covers the edge or the state was not OPEN; then the next cycle starts, without samples, at the SND.NXT it found |
| SenderReductions.TimeoutSizes | internet-modifications/tcp-socket-base.cc:3633-3647 | A timeout that takes a retry reduces the threshold, unless in LOSS the head was already sent again, and leaves a window of one segment before it sends |
| SenderReductions.RepeatedAckSizes | internet-modifications/tcp-socket-base.cc:1580-1690 | An ACK that repeats SND.UNA: in RECOVERY the recovery ops set the window, into RECOVERY they do with the threshold reduced, otherwise neither moves |
| SenderReductions.EpisodeAckSizes | internet-modifications/tcp-socket-base.cc:1925-2080 | An ACK that moves SND.UNA in an episode: in LOSS NewReno's growth is added, in RECOVERY the recovery ops set the window when a whole segment was acknowledged or the episode ends; the threshold stays |
| SenderTheorems.SequenceNumbersOrdered | internet-modifications/tcp-socket-base.cc:1885-2090 | After every run SND.UNA <= SND.NXT <= the high mark <= the end of the data |
| SenderTheorems.CongestionMachineConsistent | internet-modifications/tcp-socket-base.cc:1638-2091 | After every run: recovery point active, and inside the outstanding data, exactly in RECOVERY and LOSS; OPEN and LOSS without duplicate ACKs, DISORDER with 1 up to threshold - 1; no guessed SACK bytes in LOSS |
| SenderTheorems.RecoveriesSeparated | internet-modifications/tcp-socket-base.cc:1609-1613 | RFC 6675 section 5.1: between two fast-recovery entries, by any route and with any timeouts between, SND.UNA reached the first recovery point (whose point is the high mark: SenderMachine.EntryAtHighMark) |
| SenderTheorems.EcnCutsOncePerWindow | internet-modifications/tcp-socket-base.cc:2987-2999 | RFC 3168 section 6.1.2: between two reductions for ECN everything outstanding at the first was acknowledged (and it does cut: SenderEcn.AckReaction, SenderEcn.EchoThenCut) |
| SenderTheorems.CutRecordedAtHighMark | internet-modifications/tcp-socket-base.cc:2987-2999 | A reduction is recorded at the high mark of that moment and leaves ssThresh = cWnd, no larger than before |
| SenderTheorems.EntryReduces | internet-modifications/tcp-socket-base.cc:1580-1628 | Entering fast recovery adds nothing to the bytes in flight, makes the head the next segment to resend unless the scoreboard already held it lost, and leaves cWnd >= 1 segment and 2 segments <= ssThresh <= max(cWnd - segment, 2 segments) |
| SenderTheorems.RetryHeadResendsHead | internet-modifications/tcp-socket-base.cc:3767-3792 | A lost head not yet retransmitted is what DoRetransmit sends, once, and nothing unsent with it |
| SenderTheorems.RenoResendsHead | internet-modifications/tcp-socket-base.cc:1925-1945 | Without SACK both the entry to fast recovery and every partial ACK resend the first unacknowledged byte |
| SenderTheorems.SegmentsAreDivision | internet-modifications/tcp-socket-base.cc:1889-1899 | After every run the segments counted ACK by ACK are (UNA - UNA0) / segmentSize and the remainder kept is the modulus |
| SenderTheorems.SenderObeysKarn | internet-modifications/tcp-socket-base.cc:3441-3488 | Inside the running sender no sample is taken on a byte sent twice, unless since the last timeout a retransmission touched an unmarked entry other than the one it marks |
| SenderTheorems.SwiftActsOnSamples | internet-modifications/tcp-swift.cc:126-192 | Every adjustment of a running connection used three samples or more, a measured positive RTT, and a base no larger than any earlier sample |
| SenderTheorems.BaseRttIsLeastSample | internet-modifications/tcp-swift.cc:82-85 | After every run the base RTT is the least non-zero sample and bounds minRtt and lastRtt |
| SenderTheorems.SwiftCyclesSpanRoundTrips | internet-modifications/tcp-swift.cc:126-130 | A cycle ends only on an ACK covering the SND.NXT recorded by the previous one |
| SenderTheorems.AdjustmentsOncePerCycle | internet-modifications/tcp-swift.cc:126-211 | After every run adjustments are at most as many as cycles, each closed by its cycle |
| SenderTheorems.SendLoopInFlight | internet-modifications/tcp-socket-base.cc:3130-3249 | The loop ends with bytes in flight at most the larger of their value and the window at entry, even when ECN cuts the window inside the loop |
| SenderTheorems.SendPendingDataInFlight | internet-modifications/tcp-socket-base.cc:3108-3269 | The same for SendPendingData with the window min(rWnd, cWnd) |
| SenderTheorems.TimeoutLeavesOneSegment | internet-modifications/tcp-socket-base.cc:3656-3663 | After a retransmitting timeout at most one segment is in flight |
| SenderWindows.StepWindows | internet-modifications/tcp-socket-base.cc:1278-1535 | With beta <= 5 or one-byte segments, every event without an ECN echo, CE marks and CWR flags included, keeps cWnd >= 1 segment and ssThresh >= 2 segments |
| SenderWindows.EcnStaysOffIff | internet-modifications/tcp-socket-base.cc:1293-1305 | ECN that is off stays off exactly through the events that are neither a CE mark nor a CWR flag |
| SenderWindows.WindowsStayUsable | internet-modifications/tcp-swift.cc:118-228 | So does every run in which no echo arrives while ECN is on, negotiated or not, and the subtraction in GetSsThresh never wraps |
| SenderWindows.SlowRunLosesWindow | internet-modifications/tcp-swift.cc:177-228 | With beta >= 6 and segments of more than a byte: a run of six events, its RTT estimates the eighth-weight averages of its samples, that leaves cWnd < 1 segment, where the subtraction wraps |
| SenderWindows.AlwaysUsableIff | internet-modifications/tcp-swift.cc:118-228 | Hence for every connection and every run without an echo the window stays usable if and only if beta <= 5 or segments are single bytes |
| SenderWindows.IdleSenderSends | internet-modifications/tcp-socket-base.cc:3174-3180 | Hence silly-window avoidance never stalls an idle sender whose peer offers a segment: whether NextSeg names new data or data presumed lost, it sends |
| SenderAssertions.DisorderAssertionIff | internet-modifications/tcp-socket-base.cc:3132-3260 | The assertion that nothing is sent in DISORDER without SACK or limited transmit fails exactly when the pacing timer is idle, NextSeg names a segment, the window has room for it and neither silly-window avoidance nor Nagle holds it back |
| SenderAssertions.DisorderAssertionFires | internet-modifications/tcp-socket-base.cc:3251-3260 | A reachable state in which it fails: one byte sent, one duplicate ACK, one more byte written |
| SenderTimers.TimeoutsBackOff | internet-modifications/tcp-socket-base.cc:3580-3627 | RFC 6298 rule 5.5 from every reachable state with data outstanding: while no new ACK arrives (old and duplicate ones may) and no empty segment is sent, n timeouts give rto = min(2^n rto0, 60 s); exactly dataRetrCount of them take a retry and the next gives the connection up |
| SenderTimers.TimeoutResendsIff | internet-modifications/tcp-socket-base.cc:3172-3190 | A timeout that takes a retry sends, from SND.UNA (RFC 6298 rule 5.4), exactly when the peer's window is open and has room for a segment or all that is left, and Nagle is off or a full segment is left; otherwise it sends nothing |
| SenderTimers.NagleStalls | internet-modifications/tcp-socket-base.cc:3181-3189 | With Nagle on and less than a segment left after a timeout, no timeout, send attempt, mark or ACK short of new data ever makes the sender send again, over every run whose writes do not fill the segment |
| SenderTimers.LostTailIsNeverResent | internet-modifications/tcp-socket-base.cc:3656-3658 | From the handshake: write less than a segment, send it, time out; whatever follows short of an ACK of it, it was sent once |
| SenderPeerWindow.PeerWindowAssertionIff | internet-modifications/tcp-socket-base.cc:2962-2964 | In a given state some turn of the send loop fails the assertion exactly when it can send new data, the highest ACK counted is behind SND.UNA, and the segment asked for passes the peer's window counted from that ACK |
| SenderPeerWindow.ThenSends | internet-modifications/tcp-socket-base.cc:1809-1811 | Every event that tries to send is its processing followed by the send loop |
| SenderPeerWindow.StaysInPeerWindowIff | internet-modifications/tcp-socket-base.cc:2962-2964 | No send loop of any run fails it, if and only if the handshake counted the ACK of the SYN: after an active open (1354), not after a passive one |
| SenderPeerWindow.FirstFlightOverruns | internet-modifications/tcp-socket-base.cc:2962-2964 | After a passive open a first write that fills the peer's window fails it |
| SenderWait.AnyAckOrderIff | internet-modifications/tcp-socket-base.cc:2337-2352 | In CLOSE_WAIT and the FIN_WAIT states an ACK keeps SND.UNA <= SND.NXT <= high mark exactly when it is not past the high mark; an older one moves nothing, one past it moves SND.UNA and SND.NXT to itself |
| TcpSocketBase.TcpSocketBase.constructor | internet-modifications/tcp-socket-base.h:1241-1284 | A socket over what the handshake prepared satisfies the invariant |
| TcpSocketBase.Establish | internet-modifications/tcp-socket-base.cc:2172-2181 | The end of the handshake: Swift is told the state is OPEN before SND.NXT passes the SYN, and the socket starts valid |
| TcpSocketBase.TcpSocketBase.CutIfDue | internet-modifications/tcp-socket-base.cc:2987-2999 | New data with an unanswered ECN echo cuts the window once (EcnCutsOncePerWindow) |
| TcpSocketBase.TcpSocketBase.SendDataPacket | internet-modifications/tcp-socket-base.cc:2946-3080 | Copy, ECN reduction, history and high mark, in that order (SendDataKeeps) |
| TcpSocketBase.TcpSocketBase.ChooseSegment | internet-modifications/tcp-socket-base.cc:3132-3194 | One turn's decision: pacing, NextSeg, silly window, Nagle, size; whatever it chooses is not empty |
| TcpSocketBase.TcpSocketBase.SendPendingData | internet-modifications/tcp-socket-base.cc:3108-3269 | The loop, terminating with the available window as measure, leaves Sender.SendPendingData and counts the segments it sent (SendPendingDataInFlight) |
| TcpSocketBase.TcpSocketBase.DoRetransmit | internet-modifications/tcp-socket-base.cc:3760-3793 | NextSeg asked in both modes; without SACK it names the head because the head is lost and not retransmitted, so the assertions at 3785 and 3792 hold (RetryHeadResendsHead) |
| TcpSocketBase.TcpSocketBase.SendAck | internet-modifications/tcp-socket-base.cc:2615-2616 | An empty ACK recomputes the timer, whatever it had backed off to, and echoes a pending congestion mark |
| TcpSocketBase.TcpSocketBase.EnterRecovery | internet-modifications/tcp-socket-base.cc:1580-1636 | The assertion at 1584 holds, and the head is marked before DoRetransmit asks for it (EnterRecoveryKeeps, EntryReduces) (SenderMachine.EntryAtHighMark, SenderReductions.RepeatedAckSizes) |
| TcpSocketBase.TcpSocketBase.CountDuplicate | internet-modifications/tcp-socket-base.cc:1657-1672 | The assertion at 1665 holds |
| TcpSocketBase.TcpSocketBase.DisorderAck | internet-modifications/tcp-socket-base.cc:1689-1742 | The assertion at 1697 holds; threshold, scoreboard or limited transmit (DupAckKeeps) |
| TcpSocketBase.TcpSocketBase.DupAck | internet-modifications/tcp-socket-base.cc:1638-1742 | Duplicates are ignored in LOSS, inflate in RECOVERY, count otherwise (DupAckKeeps) |
| TcpSocketBase.TcpSocketBase.NewAck | internet-modifications/tcp-socket-base.cc:3493-3534 | Retries reset, timer on request, SND.NXT brought up to the ACK (SenderEffects.NewAckRestarts) |
| TcpSocketBase.TcpSocketBase.PartialAck | internet-modifications/tcp-socket-base.cc:1925-1969 | Retransmission, window, sample and timer of a partial ACK (PartialAckKeeps) |
| TcpSocketBase.TcpSocketBase.LossAck | internet-modifications/tcp-socket-base.cc:1974-1988 | The assertion at 1983 holds; window growth in LOSS (SenderReductions.EpisodeAckSizes) |
| TcpSocketBase.TcpSocketBase.LeaveCongestion | internet-modifications/tcp-socket-base.cc:1991-2059 | The change of state by an ACK not held back by a recovery point, per state and duplicate count |
| TcpSocketBase.TcpSocketBase.FullAck | internet-modifications/tcp-socket-base.cc:1989-2090 | Recovery point deactivated; window from the recovery ops after fast recovery, from Swift otherwise (FullAckKeeps) |
| TcpSocketBase.TcpSocketBase.CreditAcked | internet-modifications/tcp-socket-base.cc:1889-1911 | Whole segments covered and the remainder carried over (SegmentsAreDivision) |
| TcpSocketBase.TcpSocketBase.AdvanceUna | internet-modifications/tcp-socket-base.cc:1885-2090 | Partial, LOSS or full ACK according to the recovery point (AdvanceUnaKeeps) |
| TcpSocketBase.TcpSocketBase.NoteAck | internet-modifications/tcp-socket-base.cc:1824-1864 | The duplicate half of ProcessAck keeps the order of the marks and the congestion machine |
| TcpSocketBase.TcpSocketBase.ProcessAck | internet-modifications/tcp-socket-base.cc:1814-2091 | The dispatch over SND.UNA and the high mark, with the branch for an ACK of the FIN dead in ESTABLISHED (ProcessAckKeeps) (SenderMachine.DuplicateCountsIff, SenderMachine.EpisodeEndsIff) |
| TcpSocketBase.TcpSocketBase.NoteEcnEcho | internet-modifications/tcp-socket-base.cc:1766-1779 | The echo machine (SenderEcn.AckReaction) |
| TcpSocketBase.TcpSocketBase.ReceivedAck | internet-modifications/tcp-socket-base.cc:1745-1812 | Trim, echo, ProcessAck, piggybacked data's ACK, then sending (ReceivedAckKeeps) |
| TcpSocketBase.TcpSocketBase.EstimateRtt | internet-modifications/tcp-socket-base.cc:3441-3488 | A non-zero measurement feeds the estimator, the timer and lastRtt |
| TcpSocketBase.TcpSocketBase.UpdateWindowSize | internet-modifications/tcp-socket-base.cc:4190-4216 | The three conditions for taking the peer's window (SenderEffects.HeaderTaken) |
| TcpSocketBase.TcpSocketBase.ProcessEstablished | internet-modifications/tcp-socket-base.cc:1459-1503 | ACKs below SND.UNA dropped, above the high mark answered and dropped |
| TcpSocketBase.TcpSocketBase.Restart | internet-modifications/tcp-socket-base.cc:3589-3647 | A timeout's threshold, LOSS and window of one segment (BackoffKeeps) (SenderReductions.TimeoutSizes) |
| TcpSocketBase.TcpSocketBase.Retransmit | internet-modifications/tcp-socket-base.cc:3656-3663 | Both assertions around the timeout's sending hold |
| TcpSocketBase.TcpSocketBase.ForwardUp | internet-modifications/tcp-socket-base.cc:1278-1503 | An arriving ACK segment is one step of the sender and keeps Valid |
| TcpSocketBase.TcpSocketBase.ReTxTimeout | internet-modifications/tcp-socket-base.cc:3537-3664 | A timeout is one step and keeps Valid; without retries the connection is given up |
| TcpSocketBase.TcpSocketBase.Send | internet-modifications/tcp-socket-base.cc:801-843 | A write extends the buffer only |
| TcpSocketBase.TcpSocketBase.DelAckTimeout | internet-modifications/tcp-socket-base.cc:3666-3680 | A delayed ACK is one step and keeps Valid |
| TcpSocketBase.TcpSocketBase.ReceivedEcnMark | internet-modifications/tcp-socket-base.cc:1157-1163 | A congestion mark on the way, or CWR from the peer (lines 1293-1305), is one step and keeps Valid |
| TcpSocketBase.TcpSocketBase.SendPendingDataEvent | internet-modifications/tcp-socket-base.cc:826-835 | The scheduled send is one step and keeps Valid |
| Network.AddExact | internet-modifications/tcp-socket-base.cc:3349-3366 | NextRxSequence moves to the first byte missing and no accepted byte is lost |
| Network.AddAgrees | internet-modifications/tcp-socket-base.cc:3350-3366 | Taking in a segment of the stream keeps the buffer a copy of the stream |
| NetworkDelivery.ArrivalAddsExactly | internet-modifications/tcp-socket-base.cc:1470-1502 | A segment in range with an ACK in range adds to what the receiver has exactly its bytes at or past RCV.NXT and below MaxRxSequence; RCV.NXT always stands at the first byte missing, and at least at min(end of the segment, MaxRxSequence) when it starts in order; any other ACK adds nothing |
| NetworkDelivery.ArrivalKeepsBytes | internet-modifications/tcp-socket-base.cc:3349-3351 | What was readable stays, and every byte added has the segment's value |
| Network.ActAdvances | internet-modifications/tcp-socket-base.cc:1278-1503 | Whatever happens at an end keeps the sender's invariant and moves SND.UNA only to an ACK number that arrived |
| Network.SenderKeepsLink | internet-modifications/tcp-socket-base.cc:1470-1503 | The sending direction: SND.UNA stays at or below the peer's RCV.NXT, and what is sent is the stream's own |
| Network.ReceiverKeepsLink | internet-modifications/tcp-socket-base.cc:3020-3020 | The receiving direction: only the stream is taken in, nothing beyond RCV.NXT is acknowledged (that it takes the payload: NetworkDelivery.ArrivalAddsExactly) |
| Network.NextKeeps | internet-modifications/tcp-socket-base.cc:1278-1503 | Every move of either end keeps the system invariant, with segments lost, duplicated and reordered at will |
| Network.ReliableDelivery | internet-modifications/tcp-socket-base.cc:1470-1503 | In every reachable state and both directions: SND.UNA <= RCV.NXT <= the high mark, no ACK in transit passes RCV.NXT, the data in order is a prefix of what was written (that a transfer completes: NetworkDelivery.TransferCompletes) |
| NetworkDelivery.TransferCompletes | internet-modifications/tcp-socket-base.cc:1470-1502 | A run of four moves in which everything written is sent, taken in, read and acknowledged, whatever else headers and unseen code answer |
| Network.DiscardedWasDelivered | internet-modifications/tcp-socket-base.cc:1762 | In both directions: no end discards a byte its peer lacks, and once all that was written is acknowledged the peer holds the whole stream |
| Network.AckedWasSent | internet-modifications/tcp-socket-base.cc:1479-1497 | No ACK in transit, to either end, passes that end's high mark, so the branch for such ACKs is dead between two such ends |
| WindowScale.CalculateWScale | internet-modifications/tcp-socket-base.cc:4028-4050 | The loop returns the least shift that brings the buffer under the largest window, at most 14 |
| WindowScale.ScaleUnique | internet-modifications/tcp-socket-base.cc:4028-4050 | There is one such shift, and it fits the buffer exactly when 14 would |
| WindowScale.WindowScaling.SynOption | internet-modifications/tcp-socket-base.cc:2621-2627 | The option on a SYN or SYN+ACK, and the shift kept from it |
| WindowScale.WindowScaling.ReceiveSyn | internet-modifications/tcp-socket-base.cc:1317-1324 | An option is taken when scaling is on, clamped to 14; otherwise scaling is turned off |
| WindowScale.WindowScaling.AdvertisedWindowSize | internet-modifications/tcp-socket-base.cc:3303-3339 | Free space, or the last value after a FIN, shifted and capped |
| WindowScale.Handshake | internet-modifications/tcp-socket-base.cc:1315-1324 | For every combination of settings: scaling ends on exactly when both wanted it, with matching shifts; a client alone in wanting it keeps its shift |
| WindowScale.Announce | internet-modifications/tcp-socket-base.cc:3319-3338 | After the handshake the field one end writes and the other reads, shifted by its own scale, never announces more than the free space |
| WindowScale.NeverOverstated | internet-modifications/tcp-socket-base.cc:3319-3338 | The same for every free space, shift and largest window |
| WindowScale.ShortByRoundingIff | internet-modifications/tcp-socket-base.cc:3328-3338 | With the shift negotiated the window read is short by less than 2^s exactly when the shifted window fits the field |
| WindowScale.NegotiatedShortByRounding | internet-modifications/tcp-socket-base.cc:3319-3338 | RFC 7323 section 2: so it is for every window up to a buffer that a shift of 14 can express |
| WindowScale.OneSidedScalingShrinks | internet-modifications/tcp-socket-base.cc:3328-3331 | A client whose peer does not scale still shifts: with a buffer beyond the field, the peer sees at most half of a window the field could have carried |
| Connect.SynBackoff | internet-modifications/tcp-socket-base.cc:2634-2648 | An unanswered connect sends exactly n = synRetries SYNs, the i-th at cnTimeout * (2^i - 1), and fails at cnTimeout * (2^n - 1); with no retries it fails at once |
| Connect.AnswersKeepTimer | internet-modifications/tcp-socket-base.cc:2634-2648 | SYNs sent while the retransmission is pending, in answer to a repeated SYN, take a retry each and leave it where it is |
| LifecycleFrames.CloseActs | internet-modifications/tcp-socket-base.cc:729-754 | Close leaves the Rx buffer and the record of the peer's FIN alone, and leaves the state or takes FIN_WAIT_1, LAST_ACK or CLOSED from the states that allow it, with our FIN sent if the end point existed |
| LifecycleFrames.ShutdownActs | internet-modifications/tcp-socket-base.cc:757-788 | ShutdownSend stays within the same frame |
| LifecycleFrames.ReactActs | internet-modifications/tcp-socket-base.cc:729-797 | So does whatever the application does in a callback |
| LifecycleFrames.DrainActs | internet-modifications/tcp-socket-base.cc:3003-3016 | So does sending, the last segment with a close pending included |
| LifecycleFrames.NotifyActs | internet-modifications/tcp-socket-base.cc:2510-2539 | In CLOSE_WAIT so does telling the application and the close that may follow |
| LifecycleInvariants.DoPeerCloseKeeps | internet-modifications/tcp-socket-base.cc:2502-2539 | CLOSE_WAIT, then LAST_ACK if the application is done, whatever it does when called back; the lifecycle invariant is kept and the trail grows only along the arrows |
| LifecycleInvariants.ReceivedDataKeeps | internet-modifications/tcp-socket-base.cc:3350-3383 | Data that fills the last gap before the FIN closes the peer's direction; the lifecycle invariant is kept and the trail grows only along the arrows |
| LifecycleInvariants.PeerCloseKeeps | internet-modifications/tcp-socket-base.cc:2465-2499 | A FIN out of range is ignored, ahead of a gap remembered, in sequence acted on; the lifecycle invariant is kept and the trail grows only along the arrows |
| LifecycleInvariants.ProcessEstablishedKeeps | internet-modifications/tcp-socket-base.cc:1459-1535 | Every flag combination in ESTABLISHED; the lifecycle invariant is kept and the trail grows only along the arrows |
| LifecycleInvariants.SynSentKeeps | internet-modifications/tcp-socket-base.cc:2124-2213 | Every flag combination in SYN_SENT, the simultaneous open and the SYN+ACK included; the lifecycle invariant is kept and the trail grows only along the arrows |
| LifecycleInvariants.SynRcvdKeeps | internet-modifications/tcp-socket-base.cc:2216-2322 | Every flag combination in SYN_RCVD; the lifecycle invariant is kept and the trail grows only along the arrows |
| LifecycleInvariants.ProcessWaitKeeps | internet-modifications/tcp-socket-base.cc:2325-2394 | Every flag combination in the FIN_WAIT states and CLOSE_WAIT; the lifecycle invariant is kept and the trail grows only along the arrows |
| LifecycleInvariants.ProcessClosingKeeps | internet-modifications/tcp-socket-base.cc:2397-2426 | Every flag combination in CLOSING; the lifecycle invariant is kept and the trail grows only along the arrows |
| LifecycleInvariants.ProcessLastAckKeeps | internet-modifications/tcp-socket-base.cc:2429-2462 | Every flag combination in LAST_ACK; the lifecycle invariant is kept and the trail grows only along the arrows |
| LifecycleInvariants.ReTxTimeoutKeeps | internet-modifications/tcp-socket-base.cc:3537-3590 | The timeout's cases that concern the state; the lifecycle invariant is kept and the trail grows only along the arrows |
| LifecycleInvariants.StepKeeps | internet-modifications/tcp-socket-base.cc:1278-1455 | Every packet, timer and application call keeps the lifecycle invariant and only extends the trail of states |
| LifecycleInvariants.StepClimbs | internet-modifications/tcp-socket-base.cc:1395-1444 | Every step leaves the state or strictly raises its rank |
| LifecycleInvariants.LifeFollowsDiagram | internet-modifications/tcp-socket-base.cc:1395-1444 | A whole life follows the arrows, makes at most seven changes, is in CLOSING or TIME_WAIT only with our FIN sent, and enters TIME_WAIT only from FIN_WAIT_2 or CLOSING |
| LifecycleInvariants.DataTimerAfterSyn | internet-modifications/tcp-socket-base.cc:3548-3560 | In every life the timer of ReTxTimeout is armed only after SYN_SENT, so the branch for SYN_SENT, with the assertion at 3550, is dead |
| LifecycleTransitions.SynSentIff | internet-modifications/tcp-socket-base.cc:2124-2213 | SYN_SENT goes to ESTABLISHED exactly on bare data or a SYN+ACK of its SYN, to SYN_RCVD on a SYN, stays on an ACK, and closes on all else |
| LifecycleTransitions.SynRcvdIff | internet-modifications/tcp-socket-base.cc:2216-2322 | SYN_RCVD, the FIN missing: bare data or an ACK of the SYN establishes, a FIN+ACK counts only at RCV.NXT, a repeated SYN is answered until the retries are used up, all else closes |
| LifecycleTransitions.EstablishedIff | internet-modifications/tcp-socket-base.cc:1459-1535 | While the peer's FIN is missing, ESTABLISHED passes it exactly by a FIN segment that completes the data or by data that completes it up to a recorded FIN, and closes exactly on a reset or illegal flags |
| LifecycleTransitions.PeerCloseIff | internet-modifications/tcp-socket-base.cc:2465-2499 | While it is missing, a FIN leads past the peer's FIN exactly when it is numbered from RCV.NXT to MaxRxSequence and nothing before it is missing |
| LifecycleTransitions.PassiveCloseIff | internet-modifications/tcp-socket-base.cc:2502-2539 | A bare FIN in sequence takes ESTABLISHED to CLOSE_WAIT, and on to LAST_ACK, with all retries, exactly when the application finishes when told or has shut down |
| LifecycleTransitions.CloseWaitIff | internet-modifications/tcp-socket-base.cc:2325-2394 | CLOSE_WAIT is closed exactly by a packet without data whose flags are a reset or illegal, or one with an ACK and such flags |
| LifecycleTransitions.ClosingIff | internet-modifications/tcp-socket-base.cc:2397-2426 | CLOSING ends in TIME_WAIT exactly on a plain ACK at RCV.NXT, in CLOSED on anything but a plain ACK |
| LifecycleTransitions.LastAckIff | internet-modifications/tcp-socket-base.cc:2429-2462 | LAST_ACK ends, in CLOSED, exactly on a plain ACK at RCV.NXT or a packet that is neither bare data, a bare FIN nor a plain ACK |
| LifecycleTransitions.ResetIff | internet-modifications/tcp-socket-base.cc:1526-1534 | A packet its state has no use for closes the connection, and is answered by a reset exactly when it is none itself, nor a FIN in the last states |
| LifecycleTransitions.CloseIff | internet-modifications/tcp-socket-base.cc:729-754 | Close finishes at once exactly with nothing unread and nothing left to send, from each state along its own arrow; with data left it waits |
| LifecycleTransitions.FinishIff | internet-modifications/tcp-socket-base.cc:757-788 | ShutdownSend, and the last segment with a close pending, move ESTABLISHED to FIN_WAIT_1 and CLOSE_WAIT to LAST_ACK, exactly when the buffer is empty or drained |
| LifecycleTransitions.ClosingTimersIff | internet-modifications/tcp-socket-base.cc:2634-2648 | The SYN timer closes exactly without retries left, the TIME_WAIT timer exactly in TIME_WAIT |
| LifecycleTransitions.LastAckTimerIff | internet-modifications/tcp-socket-base.cc:3682-3703 | The LAST_ACK timer gives the end point up exactly in LAST_ACK without retries left |
| LifecycleTransitions.DataTimerIff | internet-modifications/tcp-socket-base.cc:3537-3586 | The data timer gives it up exactly with data outstanding and no retries left |
| LifecycleReplies.DroppedIff | internet-modifications/tcp-socket-base.cc:1103-1120 | A packet with no number in the receive window (in the last states: not starting at RCV.NXT) changes nothing; an illegal one closes the connection exactly when it has one |
| LifecycleReplies.FinLeavesIff | internet-modifications/tcp-socket-base.cc:2574-2591 | Over every call and timer: a FIN leaves exactly when the sending direction finishes, with the last data when a close is pending, and again with each of its timers, always once |
| LifecycleReplies.LastAckAnswersFin | internet-modifications/tcp-socket-base.cc:2446-2449 | In LAST_ACK a FIN without ACK is answered by our FIN once more, and nothing else changes |
| LifecycleReplies.ActiveCloseIff | internet-modifications/tcp-socket-base.cc:2356-2394 | A bare FIN in sequence ends FIN_WAIT_2 in TIME_WAIT and FIN_WAIT_1 in CLOSING, or through it in TIME_WAIT when our FIN is acknowledged; and from CLOSING in CLOSED exactly when the application, still reading, closes |
| LifecycleReplies.AckDrainsIff | internet-modifications/tcp-socket-base.cc:3003-3016 | With a close pending a plain ACK finishes the sending direction exactly when the last data leaves with it, which then carries our FIN |
| LifecycleReplies.NotToldOfData | internet-modifications/tcp-socket-base.cc:791-797 | After ShutdownRecv no callback about data or its end makes a difference, over every packet |
| LifecycleTheorems.DataInFinWait | internet-modifications/tcp-socket-base.cc:3350-3383 | Data in a FIN_WAIT state: the state goes to CLOSE_WAIT (and perhaps LAST_ACK) exactly when it completes everything up to a recorded FIN and carries none itself |
| LifecycleTheorems.FinWaitIff | internet-modifications/tcp-socket-base.cc:2325-2394 | For every packet and application: a FIN_WAIT state falls back to CLOSE_WAIT or LAST_ACK exactly for bare data or a plain ACK, without FIN, completing up to a recorded FIN; and CLOSING or TIME_WAIT is entered exactly for a FIN numbered at or below NextRxSequence or a packet that finds the FIN complete |
| LifecycleTheorems.FinInSequenceIff | internet-modifications/tcp-socket-base.cc:2347-2354 | When a FIN_WAIT state ends, the peer's FIN is in sequence, all data before it received and none after, exactly when the segment carrying it ends where the data in order does |
| LifecycleTheorems.FinWithMissingData | internet-modifications/tcp-socket-base.cc:2353 | FIN_WAIT_2 ends on a FIN with 100 bytes of which only 50 were taken |
| LifecycleTheorems.OldFinEnds | internet-modifications/tcp-socket-base.cc:2353 | FIN_WAIT_2 ends on a bare FIN numbered below data already received |
| LifecycleTheorems.EcnAckResetsIff | internet-modifications/tcp-socket-base.cc:2397-2462 | In CLOSING and LAST_ACK an ACK that is taken up resets the connection exactly when it carries ECE or CWR |
| LifecycleTheorems.UnreadCloseIff | internet-modifications/tcp-socket-base.cc:729-754 | Close sends a reset and leaves the state as it was exactly when data is unread |
| LifecycleOrder.StepOrderly | internet-modifications/tcp-socket-base.cc:1278-1455 | Every step whose packet numbers the FIN consistently keeps this: no FIN complete before CLOSE_WAIT or CLOSING, the FIN complete and in sequence from then on |
| LifecycleOrder.LateStatesSawFin | internet-modifications/tcp-socket-base.cc:2325-2539 | In every life of such steps CLOSE_WAIT, LAST_ACK, CLOSING and TIME_WAIT mean that the peer's FIN arrived with all the data before it and none after it, and the assertion at 2505 never fails |
| LifecycleOrder.PeerCloseAssertionIff | internet-modifications/tcp-socket-base.cc:2502-2506 | For every packet and state: the assertion at 2505 fails exactly when, in CLOSE_WAIT or LAST_ACK, data without FIN completes everything up to a FIN recorded anew, or bare data in ESTABLISHED is taken for a second FIN |
| LifecycleOrder.RenumberedFinFails | internet-modifications/tcp-socket-base.cc:2353-2505 | Two packets that make it fail: in CLOSE_WAIT a FIN numbered ahead of a gap, then the data that fills the gap |
| LifecycleOrder.AckAssertionIff | internet-modifications/tcp-socket-base.cc:1745-1751 | For every packet and state: the assertion at 1750 fails exactly for a segment without flags in SYN_RCVD |
| TcpConnection.StepPromised | internet-modifications/tcp-socket-base.cc:1278-1455 | What every event below promises: the step of Lifecycle, the invariant kept, the state unchanged or of strictly higher rank, our FIN sent in CLOSING and TIME_WAIT, and with a consistent packet the assertion at 2505 held and the late states meaning the peer's FIN arrived |
| TcpConnection.Connection.constructor | internet-modifications/tcp-socket-base.h:1241-1248 | A newborn connection is valid and in order |
| TcpConnection.Connection.ForwardUp | internet-modifications/tcp-socket-base.cc:1278-1444 | An arriving packet, updated in place: Valid is kept and everything StepPromised says holds |
| TcpConnection.Connection.AppClose | internet-modifications/tcp-socket-base.cc:729-754 | The application closes, updated in place: Valid is kept and everything StepPromised says holds |
| TcpConnection.Connection.AppShutdown | internet-modifications/tcp-socket-base.cc:757-788 | It shuts down its sending direction, updated in place: Valid is kept and everything StepPromised says holds |
| TcpConnection.Connection.ShutdownRecv | internet-modifications/tcp-socket-base.cc:791-797 | It stops reading, updated in place: Valid is kept and everything StepPromised says holds |
| TcpConnection.Connection.SendPendingData | internet-modifications/tcp-socket-base.cc:3003-3016 | The last data leaves, with a FIN when a close is pending, updated in place: Valid is kept and everything StepPromised says holds |
| TcpConnection.Connection.SynTimeout | internet-modifications/tcp-socket-base.cc:2634-2648 | The SYN timer: another SYN, or CLOSED, updated in place: Valid is kept and everything StepPromised says holds |
| TcpConnection.Connection.FinTimeout | internet-modifications/tcp-socket-base.cc:2574-2591 | The FIN is sent again while the end point exists, updated in place: Valid is kept and everything StepPromised says holds |
| TcpConnection.Connection.ReTxTimeout | internet-modifications/tcp-socket-base.cc:3537-3590 | The retransmission timer, updated in place: Valid is kept and everything StepPromised says holds |
| TcpConnection.Connection.LastAckTimeout | internet-modifications/tcp-socket-base.cc:3682-3703 | The LAST_ACK timer, updated in place: Valid is kept and everything StepPromised says holds |
| TcpConnection.Connection.TimeWaitTimeout | internet-modifications/tcp-socket-base.cc:3808-3826 | The TIME_WAIT timer, updated in place: Valid is kept and everything StepPromised says holds |

## Left out

- SenderWindows.WindowsStayUsable: says nothing once an ECN echo has arrived with ECN on, because the reduction is then TcpNewReno's, which is not in this repository and may go under a segment; overflow of the 32-bit window is not modelled.
- SenderTheorems.SenderObeysKarn: excludes runs in which since the last timeout a retransmission touched an unmarked history entry other than the one it marks, because the property is false there (RttHistory.StraddlingSampleExample).
- SenderTimers.TimeoutsBackOff: no empty segment is sent, because SendEmptyPacket recomputes the timer at line 2616.
- Connect.SynBackoff: at most 31 retries, because the source shifts the int 1 by retries - 1 bits; the retransmission timer is the only event.
- Network.ReliableDelivery: the data phase only, without FIN and zero-window probes.
- LifecycleOrder.LateStatesSawFin: only for a peer that keeps the number of its SYN in SYN_RCVD and numbers its FIN consistently, because it is false otherwise (LifecycleTheorems.FinWithMissingData, LifecycleOrder.RenumberedFinFails).
- SenderPeerWindow.StaysInPeerWindowIff: about the turns of the send loop, for new data that NextSeg keeps within the peer's window past SND.UNA; the one segment of DoRetransmit is not followed.
- SenderWait.AnyAckOrderIff: on values, up to the sending that follows, and for the first such ACK; FIN_WAIT and CLOSE_WAIT are not part of the class TcpSocketBase.
- LifecycleInvariants.LifeFollowsDiagram: Connect and Listen are outside, and the callbacks of NotifyErrorClose and of closing for good are taken to do nothing.
- Congestion controls with HasCongControl: Swift is not one, so the rate samples are not modelled.
- m_cWndInfl, m_bytesInFlight, retransmit_count and the trace sources: nothing modelled reads them.
- Pacing: the timer is an answer of the send loop; the pacing rate Swift writes is read by nothing in the send path.
- m_canDecrease: always true where it is read.
- The callback NotifySend: what the application writes in it comes as an event of its own.
- Delayed ACKs, persist probes, the timestamp option's own state: an ACK leaves when an event says so.
- Sequence number wrap-around and 32-bit overflow, except in GetSsThresh.
- Floating-point rounding in Swift: exact rationals instead.
- ESTABLISHED is left with outstanding data only by the retry limit in `Sender`; FIN handling is in `Lifecycle`, which sees the Tx buffer through answers.
- A buffer size changed between the SYN and later segments: the scale is computed from the same buffer.
- The retransmission timer as an event queue: a timeout is an event of its own, whether or not line 3041 or 3513 set it again.
- TcpTxBuffer, TcpRxBuffer, TcpNewReno, the recovery ops, the rate ops and RttEstimator are not part of this model beyond the contracts above.
- Sockets, addresses, routing, ICMP, tags, logging, attributes, IPv6 twins, the factory classes and the simulation scripts.
