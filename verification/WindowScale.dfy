/** The window scale option: how it is chosen, negotiated and applied, and what the peer reconstructs. */
module WindowScale {
  import opened TcpTypes
  import opened Arithmetic

  const MAX_SHIFT: nat := 14

  /** Attribute MaxWindowSize: what the 16-bit header field may carry. */
  type Window16 = w: int | 0 <= w < 0x1_0000

  /** x >> n, one bit at a time. */
  function ShiftRight(x: nat, n: nat): nat {
    if n == 0 then x else ShiftRight(x, n - 1) / 2
  }

  function ShiftLeft(x: nat, n: nat): nat {
    if n == 0 then x else 2 * ShiftLeft(x, n - 1)
  }

  lemma {:induction false} ShiftLeftIsProduct(x: nat, n: nat)
    ensures ShiftLeft(x, n) == x * Power2(n)
  {
    if n > 0 {
      ShiftLeftIsProduct(x, n - 1);
      assert x * Power2(n) == 2 * (x * Power2(n - 1));
    }
  }

  lemma HalfTimesDouble(q: nat, p: nat)
    ensures q * (2 * p) == (2 * q) * p
  {
  }

  /** x >> n is the greatest q with q * 2^n <= x. */
  lemma {:induction false} ShiftRightIsQuotient(x: nat, n: nat)
    ensures ShiftRight(x, n) * Power2(n) <= x < (ShiftRight(x, n) + 1) * Power2(n)
  {
    if n > 0 {
      var y, p := ShiftRight(x, n - 1), Power2(n - 1);
      ShiftRightIsQuotient(x, n - 1);
      HalfTimesDouble(y / 2, p);
      HalfTimesDouble(y / 2 + 1, p);
      ProductMonotone(2 * (y / 2), y, p);
      ProductMonotone(y + 1, 2 * (y / 2) + 2, p);
    }
  }

  /** Comparing a shifted value with a limit. */
  lemma ShiftRightAtMostIff(x: nat, n: nat, limit: nat)
    ensures ShiftRight(x, n) <= limit <==> x < (limit + 1) * Power2(n)
  {
    ShiftRightIsQuotient(x, n);
    if ShiftRight(x, n) <= limit {
      ProductMonotone(ShiftRight(x, n) + 1, limit + 1, Power2(n));
    } else {
      ProductMonotone(limit + 1, ShiftRight(x, n), Power2(n));
    }
  }

  lemma {:induction false} ShiftRightMonotone(x: nat, y: nat, n: nat)
    requires x <= y
    ensures ShiftRight(x, n) <= ShiftRight(y, n)
  {
    if n > 0 {
      ShiftRightMonotone(x, y, n - 1);
    }
  }

  lemma {:induction false} ShiftRightAntitone(x: nat, m: nat, n: nat)
    requires m <= n
    ensures ShiftRight(x, n) <= ShiftRight(x, m)
  {
    if m < n {
      ShiftRightAntitone(x, m, n - 1);
    }
  }

  // Choosing the scale

  /** The least shift that brings the buffer under the largest window, but at most 14. */
  ghost predicate IsScale(buffer: nat, maxWin: Window16, scale: nat) {
    && scale <= MAX_SHIFT
    && (forall s :: 0 <= s < scale ==> ShiftRight(buffer, s) > maxWin)
    && (scale < MAX_SHIFT ==> ShiftRight(buffer, scale) <= maxWin)
  }

  method CalculateWScale(buffer: nat, maxWin: Window16) returns (scale: nat)
    ensures IsScale(buffer, maxWin, scale)
  {
    var maxSpace := buffer;
    scale := 0;
    while maxSpace > maxWin
      invariant maxSpace == ShiftRight(buffer, scale)
      invariant forall s :: 0 <= s < scale ==> ShiftRight(buffer, s) > maxWin
      decreases maxSpace
    {
      maxSpace := maxSpace / 2;
      scale := scale + 1;
    }
    if scale > MAX_SHIFT {
      scale := MAX_SHIFT;
    }
  }

  /** There is only one such shift, and it fits the buffer exactly when a shift of 14 would. */
  lemma ScaleUnique(buffer: nat, maxWin: Window16, s: nat, t: nat)
    requires IsScale(buffer, maxWin, s) && IsScale(buffer, maxWin, t)
    ensures s == t
    ensures ShiftRight(buffer, s) <= maxWin <==> ShiftRight(buffer, MAX_SHIFT) <= maxWin
  {
    assert s < t ==> ShiftRight(buffer, s) > maxWin;
    assert t < s ==> ShiftRight(buffer, t) > maxWin;
    ShiftRightAntitone(buffer, s, MAX_SHIFT);
  }

  // Negotiating it

  /** The fields of one end that window scaling uses. */
  class WindowScaling {
    const maxWinSize: Window16
    const bufferSize: nat
    var winScalingEnabled: bool
    var rcvWindShift: nat
    var sndWindShift: nat
    var advWnd: nat

    constructor (maxWinSize: Window16, bufferSize: nat, enabled: bool)
      ensures this.maxWinSize == maxWinSize && this.bufferSize == bufferSize && winScalingEnabled == enabled
      ensures rcvWindShift == 0 && sndWindShift == 0
    {
      this.maxWinSize, this.bufferSize, winScalingEnabled := maxWinSize, bufferSize, enabled;
      rcvWindShift, sndWindShift, advWnd := 0, 0, 0;
    }

    /** The option on a SYN or SYN+ACK about to be sent. */
    method SynOption() returns (option: Option<nat>)
      modifies this`rcvWindShift
      ensures option.Some? <==> winScalingEnabled
      ensures option.Some? ==> option.value == rcvWindShift && IsScale(bufferSize, maxWinSize, rcvWindShift)
      ensures option.None? ==> rcvWindShift == old(rcvWindShift)
    {
      option := None;
      if winScalingEnabled {
        rcvWindShift := CalculateWScale(bufferSize, maxWinSize);
        option := Some(rcvWindShift);
      }
    }

    /** A SYN or SYN+ACK arrives: an option is taken when this end has scaling on, otherwise scaling is turned off. The
        shift already announced is kept. */
    method ReceiveSyn(option: Option<nat>)
      modifies this`winScalingEnabled, this`sndWindShift
      ensures winScalingEnabled == (old(winScalingEnabled) && option.Some?)
      ensures sndWindShift == if winScalingEnabled then Min(option.value, MAX_SHIFT) else old(sndWindShift)
    {
      if option.Some? && winScalingEnabled {
        sndWindShift := option.value;
        if sndWindShift > MAX_SHIFT {
          sndWindShift := MAX_SHIFT;
        }
      } else {
        winScalingEnabled := false;
      }
    }

    /** The header field for a receive buffer with `free` bytes free; after a FIN the last window is repeated. */
    method AdvertisedWindowSize(free: nat, gotFin: bool, scale: bool) returns (w: Window16)
      modifies this`advWnd
      ensures w == Advertised(if gotFin then old(advWnd) else free, if scale then rcvWindShift else 0, maxWinSize)
      ensures advWnd == if gotFin then old(advWnd) else free
    {
      if !gotFin {
        advWnd := free;
      }
      var shifted := if scale then ShiftRight(advWnd, rcvWindShift) else advWnd;
      w := if shifted > maxWinSize then maxWinSize else shifted;
    }

    /** What UpdateWindowSize reads off a header. */
    method ReceivedWindow(field: Window16) returns (window: nat)
      ensures window == ShiftLeft(field, sndWindShift)
    {
      window := ShiftLeft(field, sndWindShift);
    }
  }

  function Advertised(free: nat, shift: nat, maxWin: Window16): Window16 {
    Min(ShiftRight(free, shift), maxWin)
  }

  /** What the peer makes of an advertised window. */
  function Reconstructed(free: nat, rcvShift: nat, sndShift: nat, maxWin: Window16): nat {
    ShiftLeft(Advertised(free, rcvShift, maxWin), sndShift)
  }

  /** SYN one way, SYN+ACK the other. Scaling is on at the end exactly when both wanted it, and then both apply the
      shift the other announced. When only the client wanted it, the client keeps shifting what it advertises. */
  method Handshake(client: WindowScaling, server: WindowScaling)
    requires client != server
    requires client.rcvWindShift == client.sndWindShift == server.rcvWindShift == server.sndWindShift == 0
    modifies client, server
    ensures client.winScalingEnabled == server.winScalingEnabled
    ensures client.winScalingEnabled == (old(client.winScalingEnabled) && old(server.winScalingEnabled))
    ensures client.winScalingEnabled ==>
              server.sndWindShift == client.rcvWindShift && client.sndWindShift == server.rcvWindShift
    ensures !client.winScalingEnabled ==> server.sndWindShift == client.sndWindShift == server.rcvWindShift == 0
    ensures if old(client.winScalingEnabled) then IsScale(client.bufferSize, client.maxWinSize, client.rcvWindShift)
            else client.rcvWindShift == 0
    ensures client.winScalingEnabled ==> IsScale(server.bufferSize, server.maxWinSize, server.rcvWindShift)
  {
    var syn := client.SynOption();
    server.ReceiveSyn(syn);
    var synAck := server.SynOption();
    client.ReceiveSyn(synAck);
  }

  // What the peer reconstructs

  /** One end advertises, the other reads: after `Handshake`, in either direction and whether or not scaling is on, the
      peer never believes in more than the free space. */
  method Announce(owner: WindowScaling, peer: WindowScaling, free: nat) returns (window: nat)
    requires peer.sndWindShift == owner.rcvWindShift || peer.sndWindShift == 0
    modifies owner`advWnd
    ensures window == Reconstructed(free, owner.rcvWindShift, peer.sndWindShift, owner.maxWinSize) <= free
  {
    NeverOverstated(free, owner.rcvWindShift, peer.sndWindShift, owner.maxWinSize);
    var field := owner.AdvertisedWindowSize(free, false, true);
    window := peer.ReceivedWindow(field);
  }

  /** The peer's shift is the one applied or none: the window it reconstructs never exceeds the free space. */
  lemma NeverOverstated(free: nat, rcvShift: nat, sndShift: nat, maxWin: Window16)
    requires sndShift == rcvShift || sndShift == 0
    ensures Reconstructed(free, rcvShift, sndShift, maxWin) <= free
  {
    var w := Advertised(free, rcvShift, maxWin);
    ShiftRightIsQuotient(free, rcvShift);
    ShiftLeftIsProduct(w, sndShift);
    ProductMonotone(w, ShiftRight(free, rcvShift), Power2(rcvShift));
    ProductMonotone(1, Power2(rcvShift), w);
  }

  /** With the shift negotiated, rounding alone is lost (less than 2^s bytes) exactly when the shifted window fits the
      header field. */
  lemma ShortByRoundingIff(free: nat, s: nat, maxWin: Window16)
    ensures free - Reconstructed(free, s, s, maxWin) < Power2(s) <==> ShiftRight(free, s) <= maxWin
  {
    var w := Advertised(free, s, maxWin);
    ShiftLeftIsProduct(w, s);
    if ShiftRight(free, s) <= maxWin {
      ShiftRightIsQuotient(free, s);
    } else {
      ShiftRightAtMostIff(free, s, maxWin);
    }
    NextMultiple(w, Power2(s));
  }

  lemma NextMultiple(w: nat, p: nat)
    ensures (w + 1) * p == w * p + p
  {
  }

  /** So it is for every window up to a buffer that a shift of 14 can express. */
  lemma NegotiatedShortByRounding(buffer: nat, free: nat, s: nat, maxWin: Window16)
    requires IsScale(buffer, maxWin, s) && ShiftRight(buffer, MAX_SHIFT) <= maxWin && free <= buffer
    ensures free - Power2(s) < Reconstructed(free, s, s, maxWin) <= free
  {
    ScaleUnique(buffer, maxWin, s, s);
    ShiftRightMonotone(free, buffer, s);
    ShortByRoundingIff(free, s, maxWin);
    NeverOverstated(free, s, s, maxWin);
  }

  /** A client whose peer does not scale still shifts: with a buffer beyond the header field, the peer sees less than
      half of any window that the unshifted field could have carried exactly. */
  lemma OneSidedScalingShrinks(buffer: nat, free: nat, s: nat, maxWin: Window16)
    requires IsScale(buffer, maxWin, s) && 0 < free <= maxWin
    ensures Reconstructed(free, 0, 0, maxWin) == free
    ensures Reconstructed(free, s, 0, maxWin) == ShiftRight(free, s)
    ensures 2 * Reconstructed(free, s, 0, maxWin) <= free <==> maxWin < buffer
  {
    ShiftRightAntitone(free, 0, s);
    assert 0 < s ==> ShiftRight(buffer, 0) > maxWin;
    if maxWin < buffer {
      ShiftRightAntitone(free, 1, s);
      assert ShiftRight(free, 1) == free / 2;
    }
  }
}
