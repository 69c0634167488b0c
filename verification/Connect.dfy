/** The retransmission of an unanswered SYN or SYN+ACK. */
module Connect {
  import opened TcpTypes
  import opened Arithmetic

  /** `due` is the pending retransmission event; `sent` and `failedAt` are history. */
  datatype SynTimer = SynTimer(retries: nat, timeout: nat, count: nat, rto: nat, due: Option<nat>,
                               sent: seq<nat>, failedAt: Option<nat>)

  predicate Expired(due: Option<nat>, now: nat) {
    due.None? || due.value <= now
  }

  /** SendEmptyPacket with the SYN flag at time `now`: it sends and doubles the timer, or gives up. */
  function Send(t: SynTimer, now: nat): SynTimer {
    if t.count == 0 then t.(failedAt := Some(now), due := None)
    else
      var rto := t.timeout * Power2(Max(0, t.retries - t.count));
      t.(rto := rto, count := t.count - 1, sent := t.sent + [now],
         due := if Expired(t.due, now) then Some(now + rto) else t.due)
  }

  /** k firings of the retransmission event, nothing arriving. */
  function Unanswered(t: SynTimer, k: nat): SynTimer {
    if k == 0 then t
    else
      var before := Unanswered(t, k - 1);
      if before.due.Some? then Send(before, before.due.value) else before
  }

  function Fresh(retries: nat, timeout: nat): SynTimer {
    SynTimer(retries, timeout, retries, 0, None, [], None)
  }

  /** When the i-th SYN of a connect at `start` leaves, counting from 0. */
  function SynTime(start: nat, timeout: nat, i: nat): nat {
    start + timeout * (Power2(i) - 1)
  }

  lemma NextSynTime(start: nat, timeout: nat, i: nat)
    ensures SynTime(start, timeout, i) + timeout * Power2(i) == SynTime(start, timeout, i + 1)
  {
    assert timeout * (Power2(i) - 1) + timeout * Power2(i) == timeout * (Power2(i + 1) - 1) by {
      assert timeout * (2 * Power2(i) - 1) == timeout * (Power2(i) - 1) + timeout * Power2(i);
    }
  }

  ghost predicate OnSchedule(t: SynTimer, start: nat, timeout: nat) {
    forall i :: 0 <= i < |t.sent| ==> t.sent[i] == SynTime(start, timeout, i)
  }

  /** An unanswered connect sends exactly `retries` SYNs, the i-th at timeout * (2^i - 1) after the start, and fails at
      timeout * (2^retries - 1). With no retries at all it fails without sending. The source shifts the int 1 by up to
      retries - 1 bits, hence at most 31 retries. */
  lemma {:induction false} SynBackoff(retries: nat, timeout: nat, start: nat, k: nat)
    requires retries <= 31
    ensures
      var t := Unanswered(Send(Fresh(retries, timeout), start), k);
      && OnSchedule(t, start, timeout)
      && t.retries == retries && t.timeout == timeout
      && |t.sent| == Min(k + 1, retries) && t.count == retries - Min(k + 1, retries)
      && (if k < retries then t.due == Some(SynTime(start, timeout, k + 1)) && t.failedAt == None
          else t.due == None && t.failedAt == Some(SynTime(start, timeout, retries)))
  {
    if k == 0 {
      NextSynTime(start, timeout, 0);
    } else {
      SynBackoff(retries, timeout, start, k - 1);
      NextSynTime(start, timeout, k);
    }
  }

  /** SYNs sent at other times than the timer's: answers to a SYN that came again. */
  function Answering(t: SynTimer, times: seq<nat>): SynTimer {
    if times == [] then t else Send(Answering(t, times[..|times| - 1]), times[|times| - 1])
  }

  /** They take their retries and leave the pending retransmission where it is. */
  lemma {:induction false} AnswersKeepTimer(t: SynTimer, times: seq<nat>)
    requires t.due.Some? && |times| <= t.count && forall i :: 0 <= i < |times| ==> times[i] < t.due.value
    ensures
      var r := Answering(t, times);
      && r.due == t.due && r.count == t.count - |times| && r.sent == t.sent + times && r.failedAt == t.failedAt
      && r.retries == t.retries && r.timeout == t.timeout
  {
    if times == [] {
      assert t.sent + times == t.sent;
    } else {
      var before, last := times[..|times| - 1], times[|times| - 1];
      AnswersKeepTimer(t, before);
      assert t.sent + before + [last] == t.sent + times;
    }
  }
}
