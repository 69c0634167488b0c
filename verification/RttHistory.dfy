/** The RTT history deque: which segments are still waiting to be timed, and Karn's rule over whole runs. */
module RttHistory {
  import opened TcpTypes

  datatype Entry = Entry(seqNo: nat, count: nat, time: nat, retx: bool) {
    function End(): nat {
      seqNo + count
    }

    predicate Holds(byte: nat) {
      seqNo <= byte < seqNo + count
    }
  }

  // The operations

  /** Index of the first entry holding the byte, or the length of the history. */
  function FirstHolding(h: seq<Entry>, byte: nat): (i: nat)
    ensures i <= |h|
    ensures forall j :: 0 <= j < i ==> !h[j].Holds(byte)
    ensures i < |h| ==> h[i].Holds(byte)
  {
    if h == [] || h[0].Holds(byte) then 0 else 1 + FirstHolding(h[1..], byte)
  }

  /** UpdateRttHistory for a retransmission: the entry holding its first byte is marked and re-measured. */
  function Mark(h: seq<Entry>, lo: nat, size: nat): seq<Entry> {
    var i := FirstHolding(h, lo);
    if i < |h| then h[i := h[i].(retx := true, count := lo + size - h[i].seqNo)] else h
  }

  /** The entries EstimateRtt keeps: it pops the front while the front ends at or below the ACK. */
  function Remaining(h: seq<Entry>, ack: nat): seq<Entry> {
    if h == [] || h[0].End() > ack then h else Remaining(h[1..], ack)
  }

  /** The RTT measured by an ACK, if any: only the front entry is looked at, and only when it was never marked.
      `echoed` is the elapsed time read from a timestamp option. */
  function Measured(h: seq<Entry>, ack: nat, now: nat, echoed: Option<nat>): Option<nat> {
    if h != [] && !h[0].retx && ack >= h[0].End() then
      var m := if echoed.Some? then echoed.value else Max(0, now - h[0].time);
      if m == 0 then None else Some(m)
    else None
  }

  class RttLog {
    var history: seq<Entry>

    constructor ()
      ensures history == []
    {
      history := [];
    }

    method UpdateRttHistory(seqNo: nat, size: nat, isRetransmission: bool, now: nat)
      modifies this
      ensures history == if isRetransmission then Mark(old(history), seqNo, size)
                         else old(history) + [Entry(seqNo, size, now, false)]
    {
      if !isRetransmission {
        history := history + [Entry(seqNo, size, now, false)];
      } else {
        var i := 0;
        while i < |history|
          invariant i <= |history| && history == old(history)
          invariant forall j :: 0 <= j < i ==> !history[j].Holds(seqNo)
        {
          if history[i].Holds(seqNo) {
            history := history[i := history[i].(retx := true, count := seqNo + size - history[i].seqNo)];
            break;
          }
          i := i + 1;
        }
      }
    }

    method EstimateRtt(ack: nat, now: nat, echoed: Option<nat>) returns (m: Option<nat>)
      modifies this
      ensures m == Measured(old(history), ack, now, echoed)
      ensures history == Remaining(old(history), ack)
    {
      m := None;
      if history != [] && !history[0].retx && ack >= history[0].End() {
        m := Some(if echoed.Some? then echoed.value else Max(0, now - history[0].time));
      }
      while history != []
        invariant Remaining(history, ack) == Remaining(old(history), ack)
        decreases |history|
      {
        if history[0].End() > ack {
          break;
        }
        history := history[1..];
      }
      if m == Some(0) {
        m := None;
      }
    }

    method Clear()
      modifies this
      ensures history == []
    {
      history := [];
    }
  }

  // The sender's view of it: what was put on the wire, and when

  datatype Span = Span(lo: nat, hi: nat)

  /** `sends` is every data transmission so far and `high` the highest byte sent plus one; history only. */
  datatype Wire = Wire(history: seq<Entry>, sends: seq<Span>, high: nat)

  datatype WireEvent =
    | SendNew(size: nat, now: nat)
    | Resend(lo: nat, size: nat)
    | Acked(ack: nat)
    | TimedOut

  /** New data leaves at the high mark, a retransmission stays below it; a data segment is never empty. */
  predicate Legal(w: Wire, e: WireEvent) {
    match e
    case SendNew(size, _) => 0 < size
    case Resend(lo, size) => 0 < size && lo + size <= w.high
    case _ => true
  }

  function Next(w: Wire, e: WireEvent): Wire {
    match e
    case SendNew(size, now) =>
      Wire(w.history + [Entry(w.high, size, now, false)], w.sends + [Span(w.high, w.high + size)], w.high + size)
    case Resend(lo, size) => w.(history := Mark(w.history, lo, size), sends := w.sends + [Span(lo, lo + size)])
    case Acked(ack) => w.(history := Remaining(w.history, ack))
    case TimedOut => w.(history := [])
  }

  /** How often a byte was transmitted. */
  function TimesSent(sends: seq<Span>, byte: nat): nat {
    if sends == [] then 0
    else
      var last := sends[|sends| - 1];
      TimesSent(sends[..|sends| - 1], byte) + if last.lo <= byte < last.hi then 1 else 0
  }

  ghost predicate Sorted(h: seq<Entry>, high: nat) {
    && (forall i :: 0 <= i < |h| ==> 0 < h[i].count && h[i].End() <= high)
    && forall i, j :: 0 <= i < j < |h| ==> h[i].End() <= h[j].seqNo
  }

  /** Karn: every byte of an entry that could still be timed was sent exactly once. */
  ghost predicate SentOnce(w: Wire) {
    forall i, byte: nat :: 0 <= i < |w.history| && !w.history[i].retx && w.history[i].Holds(byte) ==>
      TimesSent(w.sends, byte) == 1
  }

  ghost predicate NothingAbove(w: Wire) {
    forall byte: nat :: w.high <= byte ==> TimesSent(w.sends, byte) == 0
  }

  ghost predicate KarnInv(w: Wire) {
    SentOnce(w) && NothingAbove(w)
  }

  /** The retransmission touches no entry that could still be timed, other than the one it marks. */
  predicate Spares(h: seq<Entry>, lo: nat, hi: nat) {
    forall j :: 0 <= j < |h| && j != FirstHolding(h, lo) && !h[j].retx && 0 < h[j].count ==>
      hi <= h[j].seqNo || h[j].End() <= lo
  }

  /** The retransmission ends before the entry after the one it starts in. */
  predicate Fits(h: seq<Entry>, lo: nat, hi: nat) {
    var i := FirstHolding(h, lo);
    i + 1 < |h| ==> hi <= h[i + 1].seqNo
  }

  lemma TimesSentAppend(sends: seq<Span>, s: Span)
    ensures forall byte: nat ::
      TimesSent(sends + [s], byte) == TimesSent(sends, byte) + if s.lo <= byte < s.hi then 1 else 0
  {
    assert (sends + [s])[..|sends + [s]| - 1] == sends;
  }

  lemma {:induction false} RemainingIsSuffix(h: seq<Entry>, ack: nat) returns (k: nat)
    ensures k <= |h| && Remaining(h, ack) == h[k..]
    ensures forall i :: 0 <= i < k ==> h[i].End() <= ack
    ensures k < |h| ==> h[k].End() > ack
  {
    if h == [] || h[0].End() > ack {
      k := 0;
    } else {
      k := RemainingIsSuffix(h[1..], ack);
      k := k + 1;
    }
  }

  /** On a sorted history EstimateRtt removes exactly the entries that end at or below the ACK. */
  lemma RemainingExact(h: seq<Entry>, high: nat, ack: nat)
    requires Sorted(h, high)
    ensures exists k :: 0 <= k <= |h| && Remaining(h, ack) == h[k..]
                        && forall i :: 0 <= i < |h| ==> (h[i].End() <= ack <==> i < k)
  {
    var k := RemainingIsSuffix(h, ack);
    forall i | 0 <= i < |h|
      ensures h[i].End() <= ack <==> i < k
    {
      if k < i {
        assert h[k].End() <= h[i].seqNo;
      }
    }
  }

  /** Whatever is sent, acknowledged or timed out keeps Karn's rule; a retransmission keeps it exactly when it spares
      the entries that could still be timed. */
  lemma KarnStepIff(w: Wire, e: WireEvent)
    requires KarnInv(w) && Legal(w, e)
    ensures KarnInv(Next(w, e)) <==> (e.Resend? ==> Spares(w.history, e.lo, e.lo + e.size))
  {
    match e
    case SendNew(size, now) => TimesSentAppend(w.sends, Span(w.high, w.high + size));
    case Resend(lo, size) =>
      TimesSentAppend(w.sends, Span(lo, lo + size));
      if Spares(w.history, lo, lo + size) {
        SparingResendKeeps(w, lo, size);
      } else {
        OverlappingResendBreaks(w, lo, size);
      }
    case Acked(ack) => var k := RemainingIsSuffix(w.history, ack);
    case TimedOut =>
  }

  lemma SparingResendKeeps(w: Wire, lo: nat, size: nat)
    requires KarnInv(w) && Legal(w, Resend(lo, size)) && Spares(w.history, lo, lo + size)
    ensures KarnInv(Next(w, Resend(lo, size)))
  {
    var w' := Next(w, Resend(lo, size));
    TimesSentAppend(w.sends, Span(lo, lo + size));
    forall i, byte: nat | 0 <= i < |w'.history| && !w'.history[i].retx && w'.history[i].Holds(byte)
      ensures TimesSent(w'.sends, byte) == 1
    {
      assert w'.history[i] == w.history[i];
    }
  }

  lemma OverlappingResendBreaks(w: Wire, lo: nat, size: nat)
    requires KarnInv(w) && Legal(w, Resend(lo, size)) && !Spares(w.history, lo, lo + size)
    ensures !KarnInv(Next(w, Resend(lo, size)))
  {
    var w', h := Next(w, Resend(lo, size)), w.history;
    TimesSentAppend(w.sends, Span(lo, lo + size));
    var j :| 0 <= j < |h| && j != FirstHolding(h, lo) && !h[j].retx && 0 < h[j].count
             && h[j].seqNo < lo + size && lo < h[j].End();
    var byte := Max(lo, h[j].seqNo);
    assert w'.history[j] == h[j] && h[j].Holds(byte);
    assert TimesSent(w'.sends, byte) == 2;
  }

  /** The history stays sorted and disjoint under every event too; a retransmission keeps it so exactly when it fits. */
  lemma SortedStepIff(w: Wire, e: WireEvent)
    requires Sorted(w.history, w.high) && Legal(w, e)
    ensures Sorted(Next(w, e).history, Next(w, e).high) <==> (e.Resend? ==> Fits(w.history, e.lo, e.lo + e.size))
  {
    match e
    case Resend(lo, size) => SortedResendIff(w, lo, size);
    case Acked(ack) => var k := RemainingIsSuffix(w.history, ack);
    case _ =>
  }

  lemma SortedResendIff(w: Wire, lo: nat, size: nat)
    requires Sorted(w.history, w.high) && Legal(w, Resend(lo, size))
    ensures Sorted(Mark(w.history, lo, size), w.high) <==> Fits(w.history, lo, lo + size)
  {
    var h, k := w.history, FirstHolding(w.history, lo);
    if k < |h| {
      var m := Mark(h, lo, size);
      assert m == h[k := h[k].(retx := true, count := lo + size - h[k].seqNo)];
      assert m[k].seqNo == h[k].seqNo && m[k].End() == lo + size && 0 < m[k].count;
      if Fits(h, lo, lo + size) {
        forall i, j | 0 <= i < j < |m|
          ensures m[i].End() <= m[j].seqNo
        {
          assert h[i].End() <= h[j].seqNo;
          if i == k && k + 1 < j {
            assert h[k + 1].End() <= h[j].seqNo;
          }
        }
      } else {
        assert m[k + 1] == h[k + 1];
      }
    }
  }

  // Whole runs

  function Run(w: Wire, es: seq<WireEvent>): Wire {
    if es == [] then w else Next(Run(w, es[..|es| - 1]), es[|es| - 1])
  }

  ghost predicate RunSpares(w: Wire, es: seq<WireEvent>) {
    es == [] ||
    var before, e := Run(w, es[..|es| - 1]), es[|es| - 1];
    RunSpares(w, es[..|es| - 1]) && Legal(before, e) && (e.Resend? ==> Spares(before.history, e.lo, e.lo + e.size))
  }

  ghost predicate RunFits(w: Wire, es: seq<WireEvent>) {
    es == [] ||
    var before, e := Run(w, es[..|es| - 1]), es[|es| - 1];
    RunFits(w, es[..|es| - 1]) && Legal(before, e) && (e.Resend? ==> Fits(before.history, e.lo, e.lo + e.size))
  }

  lemma {:induction false} KarnRun(first: nat, es: seq<WireEvent>)
    requires RunSpares(Wire([], [], first), es)
    ensures KarnInv(Run(Wire([], [], first), es))
  {
    if es != [] {
      KarnRun(first, es[..|es| - 1]);
      KarnStepIff(Run(Wire([], [], first), es[..|es| - 1]), es[|es| - 1]);
    }
  }

  /** In every run from an empty history whose retransmissions fit, the history stays sorted and disjoint. */
  lemma {:induction false} SortedRun(first: nat, es: seq<WireEvent>)
    requires RunFits(Wire([], [], first), es)
    ensures
      var w := Run(Wire([], [], first), es);
      Sorted(w.history, w.high)
  {
    if es != [] {
      SortedRun(first, es[..|es| - 1]);
      SortedStepIff(Run(Wire([], [], first), es[..|es| - 1]), es[|es| - 1]);
    }
  }

  /** Karn's rule: the ACK that yields a sample covers an entry no byte of which was ever sent twice. */
  lemma SamplesObeyKarn(first: nat, es: seq<WireEvent>, ack: nat, now: nat, echoed: Option<nat>)
    requires RunSpares(Wire([], [], first), es)
    ensures
      var w := Run(Wire([], [], first), es);
      Measured(w.history, ack, now, echoed).Some? ==>
        w.history[0].End() <= ack && forall byte: nat :: w.history[0].Holds(byte) ==> TimesSent(w.sends, byte) == 1
  {
    KarnRun(first, es);
  }

  /** After a timeout nothing outstanding is ever timed: whatever follows, the history speaks only of data first sent
      after it. */
  lemma {:induction false} TimeoutStartsOver(w: Wire, es: seq<WireEvent>)
    ensures
      var r := Run(Next(w, TimedOut), es);
      w.high <= r.high && forall i :: 0 <= i < |r.history| ==> w.high <= r.history[i].seqNo
  {
    if es != [] {
      TimeoutStartsOver(w, es[..|es| - 1]);
      var before := Run(Next(w, TimedOut), es[..|es| - 1]);
      if es[|es| - 1].Acked? {
        var k := RemainingIsSuffix(before.history, es[|es| - 1].ack);
      }
    }
  }

  /** The oldest segment out is timed by the ACK that covers it, to the time it took, exactly when no retransmission started
      in it meanwhile. */
  lemma {:induction false} OldestIsTimedIff(w: Wire, size: nat, sent: nat, es: seq<WireEvent>, ack: nat, now: nat)
    requires w.history == [] && 0 < size && w.high + size <= ack && sent < now
    requires forall i :: 0 <= i < |es| ==> es[i].SendNew? || es[i].Resend?
    ensures
      var h := Run(Next(w, SendNew(size, sent)), es).history;
      var again := exists i :: 0 <= i < |es| && es[i].Resend? && w.high <= es[i].lo < w.high + size;
      && h != [] && h[0].seqNo == w.high && h[0].time == sent && (h[0].retx <==> again)
      && (!again ==> h[0].count == size && Measured(h, ack, now, None) == Some(now - sent))
      && (again ==> Measured(h, ack, now, None) == None)
  {
    if es != [] {
      var front, e := es[..|es| - 1], es[|es| - 1];
      OldestIsTimedIff(w, size, sent, front, ack, now);
      assert forall i :: 0 <= i < |front| ==> front[i] == es[i];
    }
  }

  /** A retransmission across two entries defeats the rule: bytes 10 to 14 are sent twice and then timed. */
  lemma StraddlingSampleExample()
    ensures
      var w := Next(Next(Next(Next(Wire([], [], 0), SendNew(10, 1)), SendNew(10, 2)), Resend(5, 10)), Acked(15));
      Measured(w.history, 20, 9, None) == Some(7) && w.history[0].Holds(10) && TimesSent(w.sends, 10) == 2
  {
    var e0, e1 := Entry(0, 10, 1, false), Entry(10, 10, 2, false);
    var sends := [Span(0, 10), Span(10, 20)];
    var w2 := Next(Next(Wire([], [], 0), SendNew(10, 1)), SendNew(10, 2));
    assert w2 == Wire([e0, e1], sends, 20);
    var marked := [e0.(retx := true, count := 15), e1];
    var w3 := Next(w2, Resend(5, 10));
    assert w3.history == marked;
    var k := RemainingIsSuffix(marked, 15);
    assert k == 1 && marked[1..] == [e1];
    TimesSentAppend([], sends[0]);
    TimesSentAppend([sends[0]], sends[1]);
    TimesSentAppend(sends, Span(5, 15));
    assert [sends[0]] + [sends[1]] == sends;
  }
}
