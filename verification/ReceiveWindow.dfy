/** Flow control of one channel: the sending half, the receiving half, and its credit window. */
module ReceiveWindow {
  import opened Wrappers
  import opened FrameCodec
  import opened ConnectionLimits

  datatype Credits = Credits(frames: nat, bytes: nat)

  const INITIAL_CREDITS: Credits := Credits(INITIAL_FRAME_CREDIT, INITIAL_BYTE_CREDIT)

  function Min(a: nat, b: nat): nat { if a < b then a else b }

  function Concat(chunks: seq<Bytes>): Bytes {
    if chunks == [] then [] else chunks[0] + Concat(chunks[1..])
  }

  lemma {:induction false} ConcatAppend(chunks: seq<Bytes>, chunk: Bytes)
    ensures Concat(chunks + [chunk]) == Concat(chunks) + chunk
  {
    if chunks == [] {
      assert chunks + [chunk] == [chunk];
      assert Concat([chunk]) == chunk + Concat([]);
    } else {
      ConcatAppend(chunks[1..], chunk);
      assert (chunks + [chunk])[1..] == chunks[1..] + [chunk];
    }
  }

  // ---------- The sending half ----------

  /** `Sender` with its shared state; `accepted` is the history of bytes `poll_write` accepted. */
  datatype Sender = Sender(
    closed: bool,
    dropped: bool,
    credit: Credits,
    pending: Option<Bytes>,
    closedSent: bool,
    accepted: Bytes)

  function NewSender(c: Credits): Sender { Sender(false, false, c, None, false, []) }

  function Unsent(s: Sender): Bytes { if s.pending.Some? then s.pending.value else [] }

  /** The part of `poll_write` after a successful flush: at most one chunk, within the byte credit. */
  function WriteChunk(s: Sender, buf: Bytes, maxPayload: nat): (r: (Sender, nat))
    ensures r.1 <= |buf|
  {
    if buf == [] || s.credit.bytes == 0 then (s, 0)
    else
      var n := Min(Min(s.credit.bytes, |buf|), maxPayload);
      (s.(pending := Some(buf[..n]), accepted := s.accepted + buf[..n]), n)
  }

  /** The pending chunk left the sender as one data frame. */
  function ChunkSent(s: Sender): Sender
    requires s.pending.Some? && 0 < s.credit.frames && |s.pending.value| <= s.credit.bytes
  {
    s.(pending := None, credit := Credits(s.credit.frames - 1, s.credit.bytes - |s.pending.value|))
  }

  /** Holds against any peer: the credit assertion of `poll_send_chunk` cannot fire, and no chunk
      is empty or larger than a frame may be. */
  ghost predicate SenderInv(s: Sender, maxPayload: nat) {
    && s.credit.frames <= U32_MAX && s.credit.bytes <= U32_MAX
    && (s.pending.Some? ==> 0 < |s.pending.value| <= s.credit.bytes && |s.pending.value| <= maxPayload)
    && (s.closedSent ==> s.closed && s.pending.None?)
    && (s.dropped ==> s.closed)
  }

  // ---------- The receiving half ----------

  /** `Receiver` with its shared state; `taken` is the history of bytes handed to the reader. */
  datatype Receiver = Receiver(
    closed: bool,
    dropped: bool,
    buffer: seq<Bytes>,
    window: Credits,
    limit: Credits,
    credit: Credits,
    consumed: Credits,
    partial: Option<Bytes>,
    taken: Bytes)

  function NewReceiver(l: Limits): Receiver {
    Receiver(false, false, [], INITIAL_CREDITS, Credits(l.receiveFrameLimit, l.receiveByteLimit), INITIAL_CREDITS,
             Credits(0, 0), None, [])
  }

  function Store(r: Receiver, payload: Bytes): Receiver
    requires 0 < r.credit.frames && |payload| <= r.credit.bytes
  {
    var c := Credits(r.credit.frames - 1, r.credit.bytes - |payload|);
    if r.closed then r.(credit := c) else r.(credit := c, buffer := r.buffer + [payload])
  }

  /** `saturating_mul(2).min(limit)`. */
  function Doubled(window: nat, limit: nat): nat {
    Min(Min(2 * window, U32_MAX), limit)
  }

  /** `poll_next_chunk` on a non-empty buffer, up to sending the Adjust. The two flags say whether
      the round-trip condition held when each window was considered for growth. */
  function Consume(r: Receiver, fastFrames: bool, fastBytes: bool): (Receiver, Option<Credits>)
    requires r.buffer != []
  {
    var consumed := Credits(r.consumed.frames + 1, r.consumed.bytes + |r.buffer[0]|);
    var framesLow := r.credit.frames < r.window.frames / 2;
    var bytesLow := r.credit.bytes < r.window.bytes / 2;
    var window := Credits(
      if framesLow && fastFrames then Doubled(r.window.frames, r.limit.frames) else r.window.frames,
      if bytesLow && fastBytes then Doubled(r.window.bytes, r.limit.bytes) else r.window.bytes);
    var update := || window != r.window
                  || (framesLow && consumed.frames >= window.frames / 2)
                  || (bytesLow && consumed.bytes >= window.bytes / 2);
    (r.(buffer := r.buffer[1..], consumed := consumed, window := window, partial := Some(r.buffer[0])),
     if update then Some(Credits(consumed.frames + Growth(window.frames, r.window.frames),
                                 consumed.bytes + Growth(window.bytes, r.window.bytes)))
     else None)
  }

  /** `new - old`, which cannot underflow while the window respects its limit. */
  function Growth(new_: nat, old_: nat): nat {
    if new_ < old_ then 0 else new_ - old_
  }

  /** The Adjust was queued: its credit may now come back as data. */
  function Returned(r: Receiver, add: Credits): Receiver {
    r.(credit := Credits(r.credit.frames + add.frames, r.credit.bytes + add.bytes), consumed := Credits(0, 0))
  }

  /** Holds against any peer: nothing outgrows the window, and the window respects its limit. */
  ghost predicate WindowInv(r: Receiver) {
    && r.credit.frames + |r.buffer| + r.consumed.frames <= r.window.frames <= r.limit.frames <= U32_MAX
    && r.credit.bytes + |Concat(r.buffer)| + r.consumed.bytes <= r.window.bytes <= r.limit.bytes <= U32_MAX
    && INITIAL_FRAME_CREDIT <= r.window.frames && INITIAL_BYTE_CREDIT <= r.window.bytes
  }

  /** While the receiver is open and no Adjust was refused, the window is fully accounted for, and
      a drained buffer leaves at least half of it with the sender. */
  ghost predicate Tight(r: Receiver) {
    !r.closed ==>
      && r.credit.frames + |r.buffer| + r.consumed.frames == r.window.frames
      && r.credit.bytes + |Concat(r.buffer)| + r.consumed.bytes == r.window.bytes
      && (r.buffer == [] ==> r.credit.frames >= r.window.frames / 2 && r.credit.bytes >= r.window.bytes / 2)
  }

  lemma StoreKeepsWindow(r: Receiver, payload: Bytes)
    requires WindowInv(r) && 0 < r.credit.frames && |payload| <= r.credit.bytes
    ensures WindowInv(Store(r, payload))
    ensures Tight(r) ==> Tight(Store(r, payload))
  {
    ConcatAppend(r.buffer, payload);
  }

  /** Consuming keeps the window bounded whether or not the Adjust can be queued; growth stops at
      the configured limit and every Adjust carries credit. */
  lemma ConsumeKeepsWindow(r: Receiver, fastFrames: bool, fastBytes: bool)
    requires WindowInv(r) && r.buffer != []
    ensures var (r', add) := Consume(r, fastFrames, fastBytes);
            && WindowInv(r')
            && r.window.frames <= r'.window.frames && r.window.bytes <= r'.window.bytes
            && (add.Some? ==> 0 < add.value.frames && WindowInv(Returned(r', add.value))
                              && Returned(r', add.value).credit.frames <= r'.window.frames
                              && Returned(r', add.value).credit.bytes <= r'.window.bytes)
  {
    assert Concat(r.buffer) == r.buffer[0] + Concat(r.buffer[1..]);
  }

  /** Lazy credit return never strands a drained receiver: after the Adjust (if one is due) the
      window is again tight, so at least half of it is with the sender once the buffer is empty. */
  lemma ConsumeKeepsTight(r: Receiver, fastFrames: bool, fastBytes: bool)
    requires WindowInv(r) && Tight(r) && r.buffer != []
    ensures var (r', add) := Consume(r, fastFrames, fastBytes);
            if add.Some? then Tight(Returned(r', add.value)) else Tight(r')
  {
    assert Concat(r.buffer) == r.buffer[0] + Concat(r.buffer[1..]);
  }

  /** `poll_read` with room for `room` bytes, once a chunk is at hand. */
  function Take(r: Receiver, room: nat): (Receiver, Bytes)
    requires r.partial.Some?
  {
    var n := Min(|r.partial.value|, room);
    var rest := r.partial.value[n..];
    (r.(partial := if rest == [] then None else Some(rest), taken := r.taken + r.partial.value[..n]), r.partial.value[..n])
  }

  function Remainder(r: Receiver): Bytes { if r.partial.Some? then r.partial.value else [] }

  /** Everything that reached the receiver: taken by the reader, partly read, or buffered. */
  function Arrived(r: Receiver): Bytes {
    r.taken + Remainder(r) + Concat(r.buffer)
  }

  lemma StoreArrives(r: Receiver, payload: Bytes)
    requires 0 < r.credit.frames && |payload| <= r.credit.bytes && !r.closed
    ensures Arrived(Store(r, payload)) == Arrived(r) + payload
  {
    ConcatAppend(r.buffer, payload);
  }

  lemma ConsumeArrives(r: Receiver, fastFrames: bool, fastBytes: bool)
    requires r.buffer != [] && r.partial.None?
    ensures Arrived(Consume(r, fastFrames, fastBytes).0) == Arrived(r)
  {
  }

  lemma TakeArrives(r: Receiver, room: nat)
    requires r.partial.Some?
    ensures Arrived(Take(r, room).0) == Arrived(r)
    ensures |r.partial.value| > 0 && room > 0 ==> Take(r, room).1 != []
  {
    hide Concat;
    var n := Min(|r.partial.value|, room);
    var first, rest := r.partial.value[..n], r.partial.value[n..];
    assert r.partial.value == first + rest;
    assert Remainder(Take(r, room).0) == rest;
    assert r.taken + first + rest == r.taken + (first + rest);
  }

  // ---------- What callers are told ----------

  /** A read hands out what the reader has taken by it: the first bytes of what is left of the chunk,
      as many as there are and fit. */
  lemma TakeHandsOut(r: Receiver, room: nat)
    requires r.partial.Some?
    ensures var (r', bytes) := Take(r, room);
            && r'.taken == r.taken + bytes
            && Remainder(r) == bytes + Remainder(r')
            && |bytes| == Min(|Remainder(r)|, room)
            && r' == r.(partial := r'.partial, taken := r'.taken)
            && (r'.partial.Some? ==> r'.partial.value != [])
  {
    var n := Min(|r.partial.value|, room);
    assert r.partial.value == r.partial.value[..n] + r.partial.value[n..];
  }

  /** A write takes exactly the bytes it reports: as many as the byte credit and the payload limit
      allow, and at least one if they allow any. */
  lemma WriteReports(s: Sender, buf: Bytes, maxPayload: nat)
    ensures var (s', n) := WriteChunk(s, buf, maxPayload);
            && n <= |buf| && n <= s.credit.bytes && s'.accepted == s.accepted + buf[..n]
            && (buf != [] && s.credit.bytes > 0 ==>
                  && s'.pending == Some(buf[..n]) && n <= maxPayload
                  && (n == |buf| || n == s.credit.bytes || n == maxPayload))
            && (buf == [] || s.credit.bytes == 0 ==> s' == s)
            && s' == s.(pending := s'.pending, accepted := s'.accepted)
  {
    assert buf[..0] == [] && s.accepted + [] == s.accepted;
  }

  // ---------- When windows grow, and when credit is returned ----------

  /** A window that is low and fast is doubled, up to its limit, and no other grows. */
  lemma FastWindowGrows(r: Receiver, fastFrames: bool, fastBytes: bool)
    requires r.buffer != [] && WindowInv(r)
    ensures var w := Consume(r, fastFrames, fastBytes).0.window;
            var lowFrames, lowBytes := r.credit.frames < r.window.frames / 2, r.credit.bytes < r.window.bytes / 2;
            && (lowFrames && fastFrames && 2 * r.window.frames <= r.limit.frames ==> w.frames == 2 * r.window.frames)
            && (lowFrames && fastFrames && 2 * r.window.frames > r.limit.frames ==> w.frames == r.limit.frames)
            && (!(lowFrames && fastFrames) ==> w.frames == r.window.frames)
            && (lowBytes && fastBytes && 2 * r.window.bytes <= r.limit.bytes ==> w.bytes == 2 * r.window.bytes)
            && (lowBytes && fastBytes && 2 * r.window.bytes > r.limit.bytes ==> w.bytes == r.limit.bytes)
            && (!(lowBytes && fastBytes) ==> w.bytes == r.window.bytes)
  {
    hide Concat;
  }

  /** While half of both windows is still with the sender no credit is returned; and whenever all of a
      drained window has been consumed, it is. */
  lemma CreditReturnedLazily(r: Receiver, fastFrames: bool, fastBytes: bool)
    requires r.buffer != [] && WindowInv(r)
    ensures r.credit.frames >= r.window.frames / 2 && r.credit.bytes >= r.window.bytes / 2 ==>
              Consume(r, fastFrames, fastBytes).1.None?
    ensures r.credit.frames == 0 && r.consumed.frames + 1 == r.window.frames ==> Consume(r, fastFrames, fastBytes).1.Some?
  {
    hide Concat;
  }

  // ---------- Reading whole chunks ----------

  /** `poll_next` of the receiver as a stream: the oldest chunk goes to the caller as it is, whatever
      is left of one that was partly read before. Credit is counted as in any other read. */
  function TakeItem(r: Receiver, fastFrames: bool, fastBytes: bool): Receiver
    requires r.buffer != []
  {
    Consume(r, fastFrames, fastBytes).0.(partial := r.partial, taken := r.taken + r.buffer[0])
  }

  /** The bytes stay in order exactly if it does not matter which of the two comes first; so always
      if no chunk was partly read. */
  lemma ItemKeepsOrder(r: Receiver, fastFrames: bool, fastBytes: bool)
    requires r.buffer != []
    ensures Arrived(TakeItem(r, fastFrames, fastBytes)) == Arrived(r) <==> r.buffer[0] + Remainder(r) == Remainder(r) + r.buffer[0]
    ensures r.partial.None? ==> Arrived(TakeItem(r, fastFrames, fastBytes)) == Arrived(r)
  {
    hide Doubled, Growth;
    var t, first, left, rest := r.taken, r.buffer[0], Remainder(r), Concat(r.buffer[1..]);
    var r' := TakeItem(r, fastFrames, fastBytes);
    assert Arrived(r) == t + (left + first) + rest;
    assert Arrived(r') == t + (first + left) + rest;
    if Arrived(r') == Arrived(r) {
      assert Arrived(r)[|t|..|t| + |left| + |first|] == left + first;
      assert Arrived(r')[|t|..|t| + |left| + |first|] == first + left;
    }
    assert r.partial.None? ==> first + left == first == left + first;
  }

  /** A chunk taken while the one before it was partly read comes first. */
  lemma ItemOvertakes(a: Byte, b: Byte, l: Limits)
    requires a != b
    ensures var r := NewReceiver(l).(partial := Some([a]), buffer := [[b]]);
            var r' := TakeItem(r, false, false);
            Arrived(r) == [a, b] && Arrived(r') == [b, a]
  {
    hide Doubled, Growth;
    assert Concat([[b]]) == [b] by { assert [[b]][1..] == []; }
    assert [] + [a] + [b] == [a, b] && [] + [b] + [a] + [] == [b, a];
  }
}
