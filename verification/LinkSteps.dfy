/** What each operation does to the direction of data it touches. The forward load is what is
    under way from the sender half to the receiver half; `back` is the credit under way to the sender. */
module LinkSteps {
  import opened Wrappers
  import opened FrameCodec
  import opened ConnectionLimits
  import opened ReceiveWindow
  import opened Endpoint
  import opened Link

  function WithSnd(n: Near, s: Sender): Near { n.(snd := Some(s)) }

  function WithRcv(far: Far, r: Receiver): Far { far.(rcv := Some(r)) }

  // ---------- Sender half ----------

  lemma FlushStep(n: Near, far: Far, out: Load, back: Credits, f: Frame)
    requires DirectionInv(n, far, out, back) && n.snd.Some?
    requires var s := n.snd.value; !s.closed && s.pending.Some? && 0 < s.credit.frames && f.Data? && f.payload == s.pending.value
    requires n.snd.value.pending.value != []
    ensures DirectionInv(WithSnd(n, ChunkSent(n.snd.value)), far, Plus(out, LoadOf(f)), back)
  {
    hide WindowInv, Tight, NoEmptyChunks, Arrived;
    var s := n.snd.value;
    assert Delivered(far) + out.payload + s.pending.value == Delivered(far) + (out.payload + s.pending.value) + [];
  }

  lemma WriteStep(n: Near, far: Far, out: Load, back: Credits, buf: Bytes, maxPayload: nat)
    requires DirectionInv(n, far, out, back) && n.snd.Some?
    requires n.snd.value.pending.None? && !n.snd.value.closedSent && 0 < maxPayload
    ensures DirectionInv(WithSnd(n, WriteChunk(n.snd.value, buf, maxPayload).0), far, out, back)
  {
    hide WindowInv, Tight, NoEmptyChunks, Arrived;
    var s := n.snd.value;
    var s' := WriteChunk(s, buf, maxPayload).0;
    var d := Delivered(far) + out.payload;
    assert d + [] + Unsent(s') == d + Unsent(s');
  }

  /** `poll_close` and the sender's drop, with the frame they send. */
  lemma FinishStep(n: Near, far: Far, out: Load, back: Credits, s': Sender, f: Frame)
    requires DirectionInv(n, far, out, back) && n.snd.Some? && f.Closed?
    requires s' == n.snd.value.(closed := true, closedSent := s'.closedSent, dropped := s'.dropped)
    requires SenderInv(s', U32_MAX) && (s'.closedSent || s'.dropped)
    requires n.snd.value.closedSent ==> s'.closedSent
    ensures n.snd.value.closedSent ==> DirectionInv(WithSnd(n, s'), far, out, back)
    ensures DirectionInv(WithSnd(n, s'), far, Plus(out, LoadOf(f)), back)
  {
    hide WindowInv, Tight, NoEmptyChunks, Arrived;
    assert out.payload + [] == out.payload;
  }

  lemma CloseArrives(n: Near, far: Far, out: Load, back: Credits)
    requires DirectionInv(n, far, out, back) && n.snd.Some?
    ensures DirectionInv(WithSnd(n, n.snd.value.(closed := true)), far, out, back)
  {
    hide WindowInv, Tight, NoEmptyChunks, Arrived;
  }

  lemma AdjustArrives(n: Near, far: Far, out: Load, back: Credits, add: Credits)
    requires DirectionInv(n, far, out, Add(add, back)) && n.snd.Some?
    ensures n.snd.value.credit.frames + add.frames <= U32_MAX && n.snd.value.credit.bytes + add.bytes <= U32_MAX
    ensures DirectionInv(WithSnd(n, n.snd.value.(credit := Add(n.snd.value.credit, add))), far, out, back)
  {
    hide WindowInv, Tight, NoEmptyChunks, Arrived;
  }

  /** Both halves gone: the sender's last state is remembered only to state what was delivered. */
  lemma NearCleanup(n: Near, far: Far, out: Load, back: Credits)
    requires DirectionInv(n, far, out, back) && n.snd.Some? && n.snd.value.dropped && n.awaiting == 0
    ensures DirectionInv(n.(snd := None, remote := None, grave := n.snd, dead := 1), far, out, back)
  {
    hide WindowInv, Tight, NoEmptyChunks, Arrived;
  }

  // ---------- Receiver half ----------

  lemma DataArrives(n: Near, far: Far, out: Load, back: Credits, f: Frame)
    requires f.Data? && DirectionInv(n, far, Plus(LoadOf(f), out), back) && far.rcv.Some?
    ensures 0 < far.rcv.value.credit.frames && |f.payload| <= far.rcv.value.credit.bytes
    ensures DirectionInv(n, WithRcv(far, Store(far.rcv.value, f.payload)), out, back)
  {
    var r := far.rcv.value;
    assert 0 < r.credit.frames && |f.payload| <= r.credit.bytes;
    StoreKeepsWindow(r, f.payload);
    if !r.closed {
      StoreArrives(r, f.payload);
      assert Arrived(r) + (f.payload + out.payload) == Arrived(r) + f.payload + out.payload;
    }
    hide WindowInv, Tight, Arrived;
  }

  lemma LateDataArrives(n: Near, far: Far, out: Load, back: Credits, f: Frame)
    requires f.Data? && DirectionInv(n, far, Plus(LoadOf(f), out), back) && far.rcv.None? && far.awaiting == 0
    ensures far.tomb.Some? ==> 0 < far.tomb.value.frames && |f.payload| <= far.tomb.value.bytes
                               && DirectionInv(n, far.(tomb := Some(Credits(far.tomb.value.frames - 1, far.tomb.value.bytes - |f.payload|))), out, back)
    ensures far.tomb.None? ==> DirectionInv(n, far, out, back)
  {
  }

  lemma ClosedArrives(n: Near, far: Far, out: Load, back: Credits, f: Frame)
    requires f.Closed? && DirectionInv(n, far, Plus(LoadOf(f), out), back)
    ensures far.rcv.Some? ==> DirectionInv(n, WithRcv(far, far.rcv.value.(closed := true)), out, back)
    ensures !Listening(far) ==> DirectionInv(n, far, out, back)
  {
    assert [] + out.payload == out.payload;
    hide WindowInv, Arrived;
    if far.rcv.Some? {
      assert Arrived(far.rcv.value.(closed := true)) == Arrived(far.rcv.value) by { ArrivedByParts(far.rcv.value, far.rcv.value.(closed := true)); }
      assert WindowInv(far.rcv.value.(closed := true)) by { WindowByParts(far.rcv.value, far.rcv.value.(closed := true)); }
    }
  }

  lemma ArrivedByParts(r: Receiver, r': Receiver)
    requires r.taken == r'.taken && r.partial == r'.partial && r.buffer == r'.buffer
    ensures Arrived(r) == Arrived(r')
  {
  }

  lemma WindowByParts(r: Receiver, r': Receiver)
    requires r' == r.(closed := r'.closed, partial := r'.partial, taken := r'.taken)
    ensures WindowInv(r) == WindowInv(r')
    ensures r.closed == r'.closed ==> Tight(r) == Tight(r')
  {
  }

  lemma ConsumeStep(n: Near, far: Far, out: Load, back: Credits, fastFrames: bool, fastBytes: bool)
    requires DirectionInv(n, far, out, back) && far.rcv.Some?
    requires far.rcv.value.buffer != [] && far.rcv.value.partial.None?
    ensures var (r, add) := Consume(far.rcv.value, fastFrames, fastBytes);
            if add.None? then DirectionInv(n, WithRcv(far, r), out, back)
            else 0 < add.value.frames && DirectionInv(n, WithRcv(far, Returned(r, add.value)), out, Add(back, add.value))
  {
    var r0 := far.rcv.value;
    var (r, add) := Consume(r0, fastFrames, fastBytes);
    ConsumeKeepsWindow(r0, fastFrames, fastBytes);
    ConsumeKeepsTight(r0, fastFrames, fastBytes);
    ConsumeArrives(r0, fastFrames, fastBytes);
    assert NoEmptyChunks(r);
    assert r.credit == r0.credit && r.closed == r0.closed && r.dropped == r0.dropped;
    if add.Some? {
      ArrivedByParts(r, Returned(r, add.value));
      ReturnStep(n, far, out, back, r, add.value);
    } else {
      hide Consume, WindowInv, Tight, Arrived, NoEmptyChunks;
    }
  }

  lemma ReturnStep(n: Near, far: Far, out: Load, back: Credits, r: Receiver, add: Credits)
    requires DirectionInv(n, far, out, back) && far.rcv.Some?
    requires r.credit == far.rcv.value.credit && r.closed == far.rcv.value.closed && r.dropped == far.rcv.value.dropped
    requires Arrived(r) == Arrived(far.rcv.value) && Arrived(Returned(r, add)) == Arrived(r) && NoEmptyChunks(r)
    requires WindowInv(Returned(r, add)) && Tight(Returned(r, add))
    ensures DirectionInv(n, WithRcv(far, Returned(r, add)), out, Add(back, add))
  {
    assert Returned(r, add).credit.frames <= U32_MAX && Returned(r, add).credit.bytes <= U32_MAX;
    assert NoEmptyChunks(Returned(r, add));
    hide Tight, WindowInv, Arrived, NoEmptyChunks;
  }

  lemma ReadStep(n: Near, far: Far, out: Load, back: Credits, room: nat)
    requires DirectionInv(n, far, out, back) && far.rcv.Some? && far.rcv.value.partial.Some?
    ensures DirectionInv(n, WithRcv(far, Take(far.rcv.value, room).0), out, back)
  {
    var r := far.rcv.value;
    var r' := Take(r, room).0;
    TakeArrives(r, room);
    WindowByParts(r, r');
    assert NoEmptyChunks(r');
    hide WindowInv, Tight, Arrived, NoEmptyChunks;
  }

  lemma DropReceiverStep(n: Near, far: Far, out: Load, back: Credits)
    requires DirectionInv(n, far, out, back) && far.rcv.Some?
    ensures DirectionInv(n, WithRcv(far, far.rcv.value.(closed := true, dropped := true, buffer := [])), out, back)
  {
    assert Concat([]) == [];
  }

  lemma FarCleanup(n: Near, far: Far, out: Load, back: Credits)
    requires DirectionInv(n, far, out, back) && far.rcv.Some? && far.rcv.value.dropped
    ensures DirectionInv(n, Far(None, 0, Some(far.rcv.value.credit)), out, back)
  {
  }

  lemma FarEvicted(n: Near, far: Far, out: Load, back: Credits)
    requires DirectionInv(n, far, out, back) && far.rcv.None? && far.awaiting == 0
    ensures DirectionInv(n, far.(tomb := None), out, back)
  {
  }

  // ---------- The channel comes into being ----------

  /** At the acceptor: its sender starts with the request's credit, and the opener still waits. */
  lemma AcceptedNear(l: Limits, n: Near, far: Far, out: Load)
    requires n.snd == Some(NewSender(INITIAL_CREDITS)) && n.grave.None? && n.awaiting == 0
    requires far.rcv.None? && far.awaiting > 0 && SameData(out, NOTHING)
    ensures DirectionInv(n, far, out, Credits(0, 0))
  {
  }

  /** At the opener: its accept is under way, and the acceptor's receiver is ready for data. */
  lemma AcceptedFar(l: Limits, n: Near, far: Far)
    requires l.Valid() && n.snd.None? && n.grave.None? && n.awaiting > 0
    requires far == Far(Some(NewReceiver(l)), 0, far.tomb)
    ensures DirectionInv(n, far, NOTHING, Credits(0, 0))
  {
    assert Concat([]) == [];
  }

  /** The accept arrives at the waiting opener. */
  lemma OpenedNear(n: Near, far: Far, out: Load, back: Credits)
    requires DirectionInv(n, far, out, back) && n.snd.None? && n.grave.None? && n.awaiting > 0
    requires out.frames == 0 ==> out.payload == []
    ensures DirectionInv(n.(snd := Some(NewSender(INITIAL_CREDITS)), remote := n.peer, awaiting := 0), far, out, back)
  {
  }

  lemma OpenedFar(l: Limits, n: Near, far: Far, out: Load, back: Credits)
    requires l.Valid() && DirectionInv(n, far, out, back) && far.rcv.None? && far.awaiting > 0
    ensures DirectionInv(n, Far(Some(NewReceiver(l)), 0, far.tomb), out, back)
  {
    assert Concat([]) == [];
  }

  /** The accept arrives after its caller gave up: no sender will ever exist, and a tombstone keeps
      the credit the acceptor may already be using. */
  lemma LateNear(n: Near, far: Far, out: Load, back: Credits, f: Frame)
    requires DirectionInv(n, far, out, back) && n.snd.None? && n.grave.None? && n.awaiting > 0 && f.Closed?
    ensures DirectionInv(n.(awaiting := 0, dead := 1), far, Plus(out, LoadOf(f)), back)
  {
    assert out.payload + [] == out.payload;
  }

  lemma LateFar(n: Near, far: Far, out: Load, back: Credits)
    requires DirectionInv(n, far, out, back) && far.rcv.None? && far.awaiting > 0
    ensures DirectionInv(n, Far(None, 0, Some(INITIAL_CREDITS)), out, back)
  {
  }
}
