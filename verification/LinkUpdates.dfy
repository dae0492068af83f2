/** The same operations on whole views: frames join or leave a pipe while a half changes. */
module LinkUpdates {
  import opened Wrappers
  import opened FrameCodec
  import opened ConnectionLimits
  import opened ReceiveWindow
  import opened Endpoint
  import opened Link
  import opened LinkSteps

  lemma Update(v: View, n: Near, far: Far, outbound: seq<Frame>, inbound: seq<Frame>)
    requires LinkInv(v) && v.near.peer.Some? && n.peer == v.near.peer
    requires Matched(v.requests, v.heldByPeer, Total(inbound).answers, n.awaiting) && Phased(v.id, n, inbound)
    requires DirectionInv(n, far, Total(outbound), Total(inbound).credit)
    ensures LinkInv(v.(near := n, far := far, outbound := outbound, inbound := inbound))
  {
    hide DirectionInv, Matched, Phased, Total;
  }

  lemma DirectionOf(v: View)
    requires LinkInv(v) && v.near.peer.Some?
    ensures DirectionInv(v.near, v.far, Total(v.outbound), Total(v.inbound).credit)
    ensures Matched(v.requests, v.heldByPeer, Total(v.inbound).answers, v.near.awaiting) && Phased(v.id, v.near, v.inbound)
  {
    hide DirectionInv, Matched, Phased, Total;
  }

  // ---------- The sender's view ----------

  /** The sender half changed and perhaps queued a frame. */
  lemma SenderUpdate(v: View, s: Sender, outbound: seq<Frame>)
    requires LinkInv(v) && v.near.peer.Some? && v.near.snd.Some?
    requires DirectionInv(WithSnd(v.near, s), v.far, Total(outbound), Total(v.inbound).credit)
    ensures LinkInv(v.(near := WithSnd(v.near, s), outbound := outbound))
  {
    DirectionOf(v);
    assert Phased(v.id, WithSnd(v.near, s), v.inbound);
    hide LinkInv, DirectionInv, Matched, Phased, Total;
    Update(v, WithSnd(v.near, s), v.far, outbound, v.inbound);
  }

  lemma FlushLink(v: View, f: Frame)
    requires LinkInv(v) && v.near.peer.Some? && v.near.snd.Some? && f.Data?
    requires var s := v.near.snd.value;
             !s.closed && s.pending.Some? && 0 < s.credit.frames && |s.pending.value| <= s.credit.bytes && f.payload == s.pending.value
    ensures LinkInv(v.(near := WithSnd(v.near, ChunkSent(v.near.snd.value)), outbound := v.outbound + [f]))
  {
    DirectionOf(v);
    TotalPush(v.outbound, f);
    assert v.near.snd.value.pending.value != [];
    FlushStep(v.near, v.far, Total(v.outbound), Total(v.inbound).credit, f);
    hide LinkInv, DirectionInv, Total, Plus, LoadOf, ChunkSent;
    SenderUpdate(v, ChunkSent(v.near.snd.value), v.outbound + [f]);
  }

  lemma WriteLink(v: View, buf: Bytes, maxPayload: nat)
    requires LinkInv(v) && v.near.peer.Some? && v.near.snd.Some? && 0 < maxPayload
    requires v.near.snd.value.pending.None? && !v.near.snd.value.closedSent
    ensures LinkInv(v.(near := WithSnd(v.near, WriteChunk(v.near.snd.value, buf, maxPayload).0)))
  {
    DirectionOf(v);
    WriteStep(v.near, v.far, Total(v.outbound), Total(v.inbound).credit, buf, maxPayload);
    hide LinkInv, DirectionInv, Total, WriteChunk;
    SenderUpdate(v, WriteChunk(v.near.snd.value, buf, maxPayload).0, v.outbound);
  }

  lemma FinishLink(v: View, s: Sender, f: Frame)
    requires LinkInv(v) && v.near.peer.Some? && v.near.snd.Some? && f.Closed?
    requires s == v.near.snd.value.(closed := true, closedSent := s.closedSent, dropped := s.dropped)
    requires SenderInv(s, U32_MAX) && (s.closedSent || s.dropped) && (v.near.snd.value.closedSent ==> s.closedSent)
    ensures v.near.snd.value.closedSent ==> LinkInv(v.(near := WithSnd(v.near, s)))
    ensures LinkInv(v.(near := WithSnd(v.near, s), outbound := v.outbound + [f]))
  {
    DirectionOf(v);
    TotalPush(v.outbound, f);
    FinishStep(v.near, v.far, Total(v.outbound), Total(v.inbound).credit, s, f);
    hide LinkInv, DirectionInv, Total, Plus, LoadOf;
    if v.near.snd.value.closedSent { SenderUpdate(v, s, v.outbound); }
    SenderUpdate(v, s, v.outbound + [f]);
  }

  /** A frame for the sender half arrived. */
  lemma SenderFrame(v: View, s: Sender, credit: Credits)
    requires LinkInv(v) && v.near.peer.Some? && v.near.snd.Some? && v.inbound != []
    requires Total(v.inbound[1..]).answers == Total(v.inbound).answers && Total(v.inbound[1..]).credit == credit
    requires DirectionInv(WithSnd(v.near, s), v.far, Total(v.outbound), credit)
    ensures LinkInv(v.(near := WithSnd(v.near, s), inbound := v.inbound[1..]))
  {
    DirectionOf(v);
    assert Phased(v.id, WithSnd(v.near, s), v.inbound[1..]);
    hide LinkInv, DirectionInv, Matched, Phased, Total;
    Update(v, WithSnd(v.near, s), v.far, v.outbound, v.inbound[1..]);
  }

  lemma CloseLink(v: View)
    requires LinkInv(v) && v.near.peer.Some? && v.near.snd.Some? && v.inbound != [] && v.inbound[0].Close?
    ensures LinkInv(v.(near := WithSnd(v.near, v.near.snd.value.(closed := true)), inbound := v.inbound[1..]))
  {
    DirectionOf(v);
    PopCredit(v.inbound);
    CloseArrives(v.near, v.far, Total(v.outbound), Total(v.inbound).credit);
    hide LinkInv, DirectionInv, Total;
    SenderFrame(v, v.near.snd.value.(closed := true), Total(v.inbound).credit);
  }

  lemma AdjustLink(v: View)
    requires LinkInv(v) && v.near.peer.Some? && v.near.snd.Some? && v.inbound != [] && v.inbound[0].Adjust?
    ensures var add := Credits(v.inbound[0].frames, v.inbound[0].bytes);
            var c := Add(v.near.snd.value.credit, add);
            && c.frames <= U32_MAX && c.bytes <= U32_MAX
            && LinkInv(v.(near := WithSnd(v.near, v.near.snd.value.(credit := c)), inbound := v.inbound[1..]))
  {
    var add := Credits(v.inbound[0].frames, v.inbound[0].bytes);
    DirectionOf(v);
    TotalHead(v.inbound);
    assert Total(v.inbound).credit == Add(add, Total(v.inbound[1..]).credit);
    assert Total(v.inbound).answers == Total(v.inbound[1..]).answers;
    AdjustArrives(v.near, v.far, Total(v.outbound), Total(v.inbound[1..]).credit, add);
    hide LinkInv, DirectionInv, Total, Plus, LoadOf;
    SenderFrame(v, v.near.snd.value.(credit := Add(v.near.snd.value.credit, add)), Total(v.inbound[1..]).credit);
  }

  // ---------- The view of the receiver's counterpart ----------

  /** The receiver half changed and perhaps queued a frame for this id. */
  lemma ReceiverUpdate(u: View, far: Far, inbound: seq<Frame>)
    requires LinkInv(u) && u.near.peer.Some? && Phased(u.id, u.near, inbound)
    requires Total(inbound).answers == Total(u.inbound).answers
    requires DirectionInv(u.near, far, Total(u.outbound), Total(inbound).credit)
    ensures LinkInv(u.(far := far, inbound := inbound))
  {
    DirectionOf(u);
    hide LinkInv, DirectionInv, Matched, Phased, Total;
    Update(u, u.near, far, u.outbound, inbound);
  }

  lemma PhasedPush(u: View, f: Frame)
    requires LinkInv(u) && u.near.peer.Some?
    ensures Phased(u.id, u.near, u.inbound + [f])
  {
    hide DirectionInv, Matched, Total;
  }

  lemma ReadLink(u: View, room: nat)
    requires LinkInv(u) && u.near.peer.Some? && u.far.rcv.Some? && u.far.rcv.value.partial.Some?
    ensures LinkInv(u.(far := WithRcv(u.far, Take(u.far.rcv.value, room).0)))
  {
    DirectionOf(u);
    ReadStep(u.near, u.far, Total(u.outbound), Total(u.inbound).credit, room);
    hide LinkInv, DirectionInv, Total, Take;
    ReceiverUpdate(u, WithRcv(u.far, Take(u.far.rcv.value, room).0), u.inbound);
  }

  lemma AdjustPush(fs: seq<Frame>, f: Frame)
    requires f.Adjust?
    ensures Total(fs + [f]).credit == Add(Total(fs).credit, Credits(f.frames, f.bytes))
    ensures Total(fs + [f]).answers == Total(fs).answers
  {
    TotalPush(fs, f);
    hide Total;
  }

  lemma ConsumeLink(u: View, ff: bool, fb: bool, f: Frame)
    requires LinkInv(u) && u.near.peer.Some? && u.far.rcv.Some? && u.far.rcv.value.partial.None? && u.far.rcv.value.buffer != []
    ensures var (r, add) := Consume(u.far.rcv.value, ff, fb);
            && (add.None? ==> LinkInv(u.(far := WithRcv(u.far, r))))
            && (add.Some? && f.Adjust? && Credits(f.frames, f.bytes) == add.value ==>
                  LinkInv(u.(far := WithRcv(u.far, Returned(r, add.value)), inbound := u.inbound + [f])))
  {
    var (r, add) := Consume(u.far.rcv.value, ff, fb);
    DirectionOf(u);
    hide LinkInv, DirectionInv, Total, Consume, Returned, Phased, Plus, LoadOf;
    ConsumeStep(u.near, u.far, Total(u.outbound), Total(u.inbound).credit, ff, fb);
    if add.None? {
      ReceiverUpdate(u, WithRcv(u.far, r), u.inbound);
    } else if f.Adjust? && Credits(f.frames, f.bytes) == add.value {
      AdjustPush(u.inbound, f);
      PhasedPush(u, f);
      ReceiverUpdate(u, WithRcv(u.far, Returned(r, add.value)), u.inbound + [f]);
    }
  }

  lemma DropReceiverLink(u: View, f: Frame)
    requires LinkInv(u) && u.near.peer.Some? && u.far.rcv.Some? && f.Close?
    ensures var r := u.far.rcv.value.(closed := true, dropped := true, buffer := []);
            LinkInv(u.(far := WithRcv(u.far, r), inbound := u.inbound + [f]))
  {
    DirectionOf(u);
    PushCredit(u.inbound, f);
    PhasedPush(u, f);
    DropReceiverStep(u.near, u.far, Total(u.outbound), Total(u.inbound).credit);
    hide LinkInv, DirectionInv, Total, Phased;
    ReceiverUpdate(u, WithRcv(u.far, u.far.rcv.value.(closed := true, dropped := true, buffer := [])), u.inbound + [f]);
  }

  /** A frame for the receiver half arrived. */
  lemma ReceiverFrame(u: View, far: Far)
    requires LinkInv(u) && u.near.peer.Some? && u.outbound != []
    requires DirectionInv(u.near, far, Total(u.outbound[1..]), Total(u.inbound).credit)
    ensures LinkInv(u.(far := far, outbound := u.outbound[1..]))
  {
    DirectionOf(u);
    hide LinkInv, DirectionInv, Matched, Phased, Total;
    Update(u, u.near, far, u.outbound[1..], u.inbound);
  }

  lemma DataLink(u: View)
    requires LinkInv(u) && u.near.peer.Some? && u.far.rcv.Some? && u.outbound != [] && u.outbound[0].Data?
    ensures var r, payload := u.far.rcv.value, u.outbound[0].payload;
            && 0 < r.credit.frames && |payload| <= r.credit.bytes
            && LinkInv(u.(far := WithRcv(u.far, Store(r, payload)), outbound := u.outbound[1..]))
  {
    hide *;
    DirectionOf(u);
    TotalHead(u.outbound);
    DataArrives(u.near, u.far, Total(u.outbound[1..]), Total(u.inbound).credit, u.outbound[0]);
    ReceiverFrame(u, WithRcv(u.far, Store(u.far.rcv.value, u.outbound[0].payload)));
  }

  lemma LateDataLink(u: View)
    requires LinkInv(u) && u.near.peer.Some? && u.far.rcv.None? && u.far.awaiting == 0
    requires u.outbound != [] && u.outbound[0].Data?
    ensures var t, n := u.far.tomb, |u.outbound[0].payload|;
            && (t.Some? ==> && 0 < t.value.frames && n <= t.value.bytes
                            && LinkInv(u.(far := u.far.(tomb := Some(Credits(t.value.frames - 1, t.value.bytes - n))), outbound := u.outbound[1..])))
            && (t.None? ==> LinkInv(u.(outbound := u.outbound[1..])))
  {
    hide *;
    DirectionOf(u);
    TotalHead(u.outbound);
    LateDataArrives(u.near, u.far, Total(u.outbound[1..]), Total(u.inbound).credit, u.outbound[0]);
    var t, n := u.far.tomb, |u.outbound[0].payload|;
    if t.Some? {
      ReceiverFrame(u, u.far.(tomb := Some(Credits(t.value.frames - 1, t.value.bytes - n))));
    } else {
      ReceiverFrame(u, u.far);
    }
  }

  lemma ReceiverListens(far: Far)
    requires far.rcv.Some?
    ensures Listening(far)
  {
  }

  lemma ClosedLink(u: View)
    requires LinkInv(u) && u.near.peer.Some? && u.outbound != [] && u.outbound[0].Closed?
    ensures u.far.rcv.Some? ==>
              LinkInv(u.(far := WithRcv(u.far, u.far.rcv.value.(closed := true)), outbound := u.outbound[1..]))
    ensures !Listening(u.far) ==> LinkInv(u.(outbound := u.outbound[1..]))
  {
    hide *;
    DirectionOf(u);
    TotalHead(u.outbound);
    ClosedArrives(u.near, u.far, Total(u.outbound[1..]), Total(u.inbound).credit, u.outbound[0]);
    if u.far.rcv.Some? {
      ReceiverListens(u.far);
      ReceiverFrame(u, WithRcv(u.far, u.far.rcv.value.(closed := true)));
    } else if !Listening(u.far) {
      ReceiverFrame(u, u.far);
    }
  }

  /** Without a sender half, credit arriving for it changes nothing. */
  lemma LateAdjustLink(v: View)
    requires LinkInv(v) && v.near.peer.Some? && v.near.snd.None? && v.near.awaiting == 0
    requires v.inbound != [] && v.inbound[0].Adjust?
    ensures LinkInv(v.(inbound := v.inbound[1..]))
  {
    DirectionOf(v);
    TotalHead(v.inbound);
    assert Total(v.inbound).answers == Total(v.inbound[1..]).answers;
    assert DirectionInv(v.near, v.far, Total(v.outbound), Total(v.inbound[1..]).credit) by {
      hide HalvesInv, Streamed, Ended, Total;
    }
    assert Phased(v.id, v.near, v.inbound[1..]);
    hide LinkInv, DirectionInv, Total, Matched, Phased;
    Update(v, v.near, v.far, v.outbound, v.inbound[1..]);
  }
}
