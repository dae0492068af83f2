/** Every step of the system keeps the pair invariant. */
module SystemSteps {
  import opened Wrappers
  import opened FrameCodec
  import opened ConnectionLimits
  import opened OutgoingQueue
  import opened ReceiveWindow
  import opened Endpoint
  import opened EndpointSafety
  import opened Link
  import opened LinkSteps
  import opened LinkUpdates
  import opened Pipes
  import opened System

  // ---------- Pipes ----------

  /** At most one frame, as a sequence. */
  function Frames(f: Option<Frame>): seq<Frame> { if f.Some? then [f.value] else [] }

  /** What is queued after the Hello. */
  predicate Sendable(f: Frame) { !f.Hello? && (f.Adjust? ==> 0 < f.frames) }

  lemma PipePush(pipe: seq<Frame>, f: Frame, to: Option<Id>, from: Option<Id>, received: bool)
    requires Greets(pipe, received) && Sendable(f)
    requires KeyOf(f) == Nobody || (to.Some? && KeyOf(f) == To(to.value)) || (from.Some? && KeyOf(f) == From(from.value))
    ensures PipeSameBut(pipe, pipe + [f], to, from) && Greets(pipe + [f], received)
  {
    forall y: Id | Some(y) != to ensures Select(pipe + [f], To(y)) == Select(pipe, To(y)) { SelectPush(pipe, f, To(y)); }
    forall x: Id | Some(x) != from ensures Select(pipe + [f], From(x)) == Select(pipe, From(x)) { SelectPush(pipe, f, From(x)); }
  }

  lemma PipePop(pipe: seq<Frame>, to: Option<Id>, from: Option<Id>, received: bool)
    requires Greets(pipe, received) && pipe != []
    requires KeyOf(pipe[0]) == Nobody || (to.Some? && KeyOf(pipe[0]) == To(to.value)) || (from.Some? && KeyOf(pipe[0]) == From(from.value))
    ensures PipeSameBut(pipe, pipe[1..], to, from) && Greets(pipe[1..], received || pipe[0].Hello?)
  {
    forall y: Id | Some(y) != to ensures Select(pipe[1..], To(y)) == Select(pipe, To(y)) { SelectHead(pipe, To(y)); }
    forall x: Id | Some(x) != from ensures Select(pipe[1..], From(x)) == Select(pipe, From(x)) { SelectHead(pipe, From(x)); }
    assert !received ==> pipe[0].Hello?;
  }

  lemma SamePeers(p: Side, q: Side, p': Side, q': Side)
    requires Mirrored(p, q) && Mirrored(q, p) && p'.peers == p.peers && q'.peers == q.peers
    ensures Mirrored(p', q') && Mirrored(q', p')
  {
  }

  lemma SameHeld(e: State, e': State)
    requires HeldInitial(e) && e'.held <= e.held
    ensures HeldInitial(e')
  {
  }

  /** From the views that changed to the whole pair. */
  lemma Settle(p: Side, q: Side, p': Side, q': Side, z: Option<Id>, w: Option<Id>)
    requires PairInv(p, q) && LocalInv(p'.e) && LocalInv(q'.e)
    requires Confined(p, q, p', q', z, w)
    requires Mirrored(p', q') && Mirrored(q', p') && HeldInitial(p'.e) && HeldInitial(q'.e)
    requires Greets(Pipe(p'), q'.e.helloReceived) && Greets(Pipe(q'), p'.e.helloReceived)
    requires z.Some? ==> LinkInv(ViewOf(p', q', z.value))
    requires w.Some? ==> LinkInv(ViewOf(q', p', w.value))
    ensures PairInv(p', q')
  {
    hide LinkInv, ViewOf, LocalInv, Mirrored, Greets, Pipe, HeldInitial, Confined;
    LinksElsewhere(p, q, p', q', z, w);
    ConfinedBothWays(p, q, p', q', z, w);
    LinksElsewhere(q, p, q', p', w, z);
  }

  // ---------- Steps on one open channel ----------

  lemma ChannelFacts(p: Side, q: Side, z: Id)
    requires PairInv(p, q) && z in p.e.channels
    ensures var w := p.e.channels[z].remote;
            && z in p.peers && p.peers[z] == w && w in q.peers && q.peers[w] == z
            && Linked(p, q, Some(z), Some(w))
            && LinkInv(ViewOf(p, q, z)) && LinkInv(ViewOf(q, p, w))
            && ViewOf(p, q, z).near.snd == Some(p.e.channels[z].sender) && ViewOf(p, q, z).near.peer == Some(w)
            && ViewOf(q, p, w).far.rcv == Some(p.e.channels[z].receiver) && ViewOf(q, p, w).near.peer == Some(z)
  {
    assert LinkInv(ViewOf(p, q, z));
    assert NearOf(p, z).snd.Some?;
    hide DirectionInv, Matched, LocalInv, Select, FarOf;
  }

  /** A channel half changed and at most one frame was queued for its counterpart. */
  lemma ChannelStep(p: Side, q: Side, p': Side, z: Id, c': Channel, f: Option<Frame>)
    requires PairInv(p, q) && z in p.e.channels && c'.remote == p.e.channels[z].remote
    requires p' == p.(e := p.e.(channels := p.e.channels[z := c'], queue := p'.e.queue))
    requires Pipe(p') == Pipe(p) + Frames(f) && LocalInv(p'.e)
    requires f.Some? ==> KeyOf(f.value) == To(c'.remote) && Sendable(f.value)
    requires var v, u := ViewOf(p, q, z), ViewOf(q, p, c'.remote);
             && LinkInv(v.(near := WithSnd(v.near, c'.sender), outbound := v.outbound + Frames(f)))
             && LinkInv(u.(far := WithRcv(u.far, c'.receiver), inbound := u.inbound + Frames(f)))
    ensures PairInv(p', q)
  {
    var w := c'.remote;
    PairParts(p, q);
    hide LinkInv, ViewOf, LocalInv, PairInv, Mirrored, Greets, Pipe, HeldInitial, NearOf, FarOf, Select;
    SamePeers(p, q, p', q);
    SameHeld(p.e, p'.e);
    ChannelFacts(p, q, z);
    ChannelPipe(p, q, p', z, w, f);
    ChannelConfined(p, q, p', z, c');
    ChannelViews(p, q, p', z, c', f);
    hide Confined, PipeSameBut, Linked;
    Settle(p, q, p', q, Some(z), Some(w));
  }

  /** The parts of the invariant that are not about single ids. */
  lemma PairParts(p: Side, q: Side)
    requires PairInv(p, q)
    ensures LocalInv(p.e) && LocalInv(q.e) && Mirrored(p, q) && Mirrored(q, p) && HeldInitial(p.e) && HeldInitial(q.e)
    ensures Greets(Pipe(p), q.e.helloReceived) && Greets(Pipe(q), p.e.helloReceived)
  {
    hide LinkInv, ViewOf, LocalInv, Mirrored, Greets, Pipe, HeldInitial;
  }

  lemma ChannelPipe(p: Side, q: Side, p': Side, z: Id, w: Id, f: Option<Frame>)
    requires Greets(Pipe(p), q.e.helloReceived)
    requires Pipe(p') == Pipe(p) + Frames(f) && (f.Some? ==> KeyOf(f.value) == To(w) && Sendable(f.value))
    ensures PipeSameBut(Pipe(p), Pipe(p'), Some(w), Some(z)) && Greets(Pipe(p'), q.e.helloReceived)
    ensures Select(Pipe(p'), To(w)) == Select(Pipe(p), To(w)) + Frames(f)
    ensures Select(Pipe(p'), From(z)) == Select(Pipe(p), From(z))
  {
    if f.Some? {
      PipePush(Pipe(p), f.value, Some(w), Some(z), q.e.helloReceived);
      SelectPush(Pipe(p), f.value, To(w));
      SelectPush(Pipe(p), f.value, From(z));
    } else {
      assert Pipe(p') == Pipe(p);
    }
  }

  lemma ChannelConfined(p: Side, q: Side, p': Side, z: Id, c': Channel)
    requires z in p.e.channels && Linked(p, q, Some(z), Some(c'.remote))
    requires p' == p.(e := p.e.(channels := p.e.channels[z := c'], queue := p'.e.queue))
    requires PipeSameBut(Pipe(p), Pipe(p'), Some(c'.remote), Some(z))
    ensures Confined(p, q, p', q, Some(z), Some(c'.remote))
  {
    hide Select, Pipe;
  }

  lemma ChannelViews(p: Side, q: Side, p': Side, z: Id, c': Channel, f: Option<Frame>)
    requires z in p.e.channels && c'.remote == p.e.channels[z].remote
    requires var w := c'.remote; z in p.peers && p.peers[z] == w && w in q.peers && q.peers[w] == z
    requires p' == p.(e := p.e.(channels := p.e.channels[z := c'], queue := p'.e.queue))
    requires Select(Pipe(p'), To(c'.remote)) == Select(Pipe(p), To(c'.remote)) + Frames(f)
    requires Select(Pipe(p'), From(z)) == Select(Pipe(p), From(z))
    ensures var v := ViewOf(p, q, z);
            ViewOf(p', q, z) == v.(near := WithSnd(v.near, c'.sender), outbound := v.outbound + Frames(f))
    ensures var u := ViewOf(q, p, c'.remote);
            ViewOf(q, p', c'.remote) == u.(far := WithRcv(u.far, c'.receiver), inbound := u.inbound + Frames(f))
  {
    hide Select, Pipe;
  }

  lemma SendQueues(p: Side, f: Frame)
    requires p.e.limits.Valid() && !p.e.closing && !Send(p.e, f).closing
    ensures Send(p.e, f) == p.e.(queue := Send(p.e, f).queue)
    ensures Pipe(p.(e := Send(p.e, f))) == Pipe(p) + [f]
  {
    assert p.wire + (p.e.queue.frames + [f]) == (p.wire + p.e.queue.frames) + [f];
  }

  /** Only the sender half changed. */
  lemma SenderStep(p: Side, q: Side, p': Side, z: Id, s: Sender, f: Option<Frame>)
    requires PairInv(p, q) && z in p.e.channels && LocalInv(p'.e)
    requires p' == p.(e := WithSender(p.e, z, s).(queue := p'.e.queue)) && Pipe(p') == Pipe(p) + Frames(f)
    requires f.Some? ==> KeyOf(f.value) == To(p.e.channels[z].remote) && Sendable(f.value)
    requires var v, u := ViewOf(p, q, z), ViewOf(q, p, p.e.channels[z].remote);
             && LinkInv(v.(near := WithSnd(v.near, s), outbound := v.outbound + Frames(f)))
             && LinkInv(u.(inbound := u.inbound + Frames(f)))
    ensures PairInv(p', q)
  {
    ChannelFacts(p, q, z);
    hide LinkInv, ViewOf, PairInv, LocalInv, Pipe, Linked, Frames;
    var c := p.e.channels[z];
    var u := ViewOf(q, p, c.remote);
    assert u.(far := WithRcv(u.far, c.receiver)) == u;
    ChannelStep(p, q, p', z, c.(sender := s), f);
  }

  /** Only the receiver half changed. */
  lemma ReceiverStep(p: Side, q: Side, p': Side, z: Id, r: Receiver, f: Option<Frame>)
    requires PairInv(p, q) && z in p.e.channels && LocalInv(p'.e)
    requires p' == p.(e := WithReceiver(p.e, z, r).(queue := p'.e.queue)) && Pipe(p') == Pipe(p) + Frames(f)
    requires f.Some? ==> KeyOf(f.value) == To(p.e.channels[z].remote) && Sendable(f.value)
    requires var v, u := ViewOf(p, q, z), ViewOf(q, p, p.e.channels[z].remote);
             && LinkInv(v.(outbound := v.outbound + Frames(f)))
             && LinkInv(u.(far := WithRcv(u.far, r), inbound := u.inbound + Frames(f)))
    ensures PairInv(p', q)
  {
    ChannelFacts(p, q, z);
    hide LinkInv, ViewOf, PairInv, LocalInv, Pipe, Linked, Frames;
    var c := p.e.channels[z];
    var v := ViewOf(p, q, z);
    assert v.(near := WithSnd(v.near, c.sender)) == v;
    ChannelStep(p, q, p', z, c.(receiver := r), f);
  }

  lemma NoFrames(p: Side, q: Side, p': Side, z: Id, w: Id)
    requires p'.wire == p.wire && p'.e.queue == p.e.queue
    ensures Pipe(p') == Pipe(p) + Frames(None)
    ensures ViewOf(p, q, z).outbound + Frames(None) == ViewOf(p, q, z).outbound
    ensures ViewOf(q, p, w).inbound + Frames(None) == ViewOf(q, p, w).inbound
  {
  }

  lemma QueuedData(p: Side, f: Frame)
    requires p.e.limits.Valid() && TryQueue(p.e.queue, f, true, p.e.limits).Queued?
    ensures Pipe(p.(e := p.e.(queue := TryQueue(p.e.queue, f, true, p.e.limits).queue))) == Pipe(p) + Frames(Some(f))
  {
    assert p.wire + (p.e.queue.frames + [f]) == (p.wire + p.e.queue.frames) + [f];
  }

  ghost predicate CanSend(e: State, z: Id)
    requires e.limits.Valid()
  {
    && SenderLive(e, z) && !e.closing
    && var c := e.channels[z];
       var s := c.sender;
       && !s.closed && s.pending.Some? && |s.pending.value| <= s.credit.bytes && s.credit.frames > 0
       && TryQueue(e.queue, Data(c.remote, s.pending.value), true, e.limits).Queued?
  }

  lemma FlushShape(e: State, z: Id)
    requires e.limits.Valid() && CanSend(e, z)
    ensures var c := e.channels[z];
            var q := TryQueue(e.queue, Data(c.remote, c.sender.pending.value), true, e.limits).queue;
            Flush(e, z).0 == WithSender(e, z, ChunkSent(c.sender)).(queue := q)
  {
    hide TryQueue, ChunkSent;
  }

  /** A flush that does not close the endpoint and is not a send changes nothing. */
  lemma FlushIdle(e: State, z: Id)
    requires e.limits.Valid() && !e.closing && !Flush(e, z).0.closing && !CanSend(e, z)
    ensures Flush(e, z).0 == e
  {
    if SenderLive(e, z) && e.channels[z].sender.closed {
      assert e.channels[z := e.channels[z].(sender := e.channels[z].sender.(closed := true))] == e.channels;
    }
    hide TryQueue, ChunkSent;
  }

  lemma PairValid(p: Side, q: Side)
    requires PairInv(p, q)
    ensures LocalInv(p.e) && LocalInv(q.e) && p.e.limits.Valid() && q.e.limits.Valid()
  {
    hide ChannelsInv, SlotsInv, Consistent, Links, Mirrored, Greets;
  }

  lemma FlushPair(p: Side, q: Side, z: Id)
    requires PairInv(p, q) && CanSend(p.e, z) && LocalInv(Flush(p.e, z).0)
    ensures PairInv(p.(e := Flush(p.e, z).0), q)
  {
    hide LinkInv, ViewOf, PairInv, LocalInv, Linked, TryQueue, ChunkSent, Flush, WithSender, Pipe;
    PairValid(p, q);
    var c := p.e.channels[z];
    var f := Data(c.remote, c.sender.pending.value);
    FlushShape(p.e, z);
    ChannelFacts(p, q, z);
    QueuedData(p, f);
    SamePipe(p.(e := Flush(p.e, z).0), p.(e := p.e.(queue := TryQueue(p.e.queue, f, true, p.e.limits).queue)));
    FlushLink(ViewOf(p, q, z), f);
    InboundPush(ViewOf(q, p, c.remote), f);
    SenderStep(p, q, p.(e := Flush(p.e, z).0), z, ChunkSent(c.sender), Some(f));
  }

  lemma SamePipe(p: Side, p': Side)
    requires p.wire == p'.wire && p.e.queue == p'.e.queue
    ensures Pipe(p) == Pipe(p')
  {
  }

  lemma WritePair(p: Side, q: Side, z: Id, buf: Bytes)
    requires PairInv(p, q) && SenderLive(p.e, z) && LocalInv(Write(p.e, z, buf))
    requires Writable(p.e, z)
    ensures PairInv(p.(e := Write(p.e, z, buf)), q)
  {
    hide LinkInv, ViewOf, PairInv, LocalInv, Linked, WriteChunk, Pipe;
    PairValid(p, q);
    var c := p.e.channels[z];
    var p' := p.(e := Write(p.e, z, buf));
    ChannelFacts(p, q, z);
    NoFrames(p, q, p', z, c.remote);
    WriteLink(ViewOf(p, q, z), buf, p.e.limits.MaxPayload());
    SenderStep(p, q, p', z, WriteChunk(c.sender, buf, p.e.limits.MaxPayload()).0, None);
  }

  /** `poll_close`, or the sender's drop before or after it. */
  lemma FinishPair(p: Side, q: Side, z: Id, e': State, s: Sender, silent: bool)
    requires PairInv(p, q) && SenderLive(p.e, z) && !p.e.closing && LocalInv(e')
    requires var f := Closed(p.e.channels[z].remote, []);
             && (if silent then p.e.channels[z].sender.closedSent else !Send(p.e, f).closing)
             && e' == WithSender(p.e, z, s).(queue := if silent then p.e.queue else Send(p.e, f).queue)
    requires s == p.e.channels[z].sender.(closed := true, closedSent := s.closedSent, dropped := s.dropped)
    requires SenderInv(s, U32_MAX) && (s.closedSent || s.dropped) && (p.e.channels[z].sender.closedSent ==> s.closedSent)
    ensures PairInv(p.(e := e'), q)
  {
    hide LinkInv, ViewOf, PairInv, LocalInv, Linked, Send, Pipe, SenderInv;
    PairValid(p, q);
    var c := p.e.channels[z];
    var f := Closed(c.remote, []);
    ChannelFacts(p, q, z);
    FinishLink(ViewOf(p, q, z), s, f);
    InboundPush(ViewOf(q, p, c.remote), f);
    if silent {
      NoFrames(p, q, p.(e := e'), z, c.remote);
      SenderStep(p, q, p.(e := e'), z, s, None);
    } else {
      SendQueues(p, f);
      SamePipe(p.(e := e'), p.(e := Send(p.e, f)));
      SenderStep(p, q, p.(e := e'), z, s, Some(f));
    }
  }

  lemma FinishClosePair(p: Side, q: Side, z: Id)
    requires PairInv(p, q) && !p.e.closing && LocalInv(FinishClose(p.e, z)) && !FinishClose(p.e, z).closing
    ensures PairInv(p.(e := FinishClose(p.e, z)), q)
  {
    if Writable(p.e, z) {
      var c := p.e.channels[z];
      SendQueues(p, Closed(c.remote, []));
      ChannelOf(p.e, z);
      hide PairInv, LocalInv, Send, Pipe;
      FinishPair(p, q, z, FinishClose(p.e, z), c.sender.(closed := true, closedSent := true), false);
    }
  }

  lemma DropSenderPair(p: Side, q: Side, z: Id)
    requires PairInv(p, q) && !p.e.closing && LocalInv(DropSender(p.e, z)) && !DropSender(p.e, z).closing
    ensures PairInv(p.(e := DropSender(p.e, z)), q)
  {
    if SenderLive(p.e, z) {
      var c := p.e.channels[z];
      ChannelOf(p.e, z);
      if !c.sender.closedSent { SendQueues(p, Closed(c.remote, [])); }
      hide PairInv, LocalInv, Send, Pipe;
      FinishPair(p, q, z, DropSender(p.e, z), c.sender.(closed := true, dropped := true), c.sender.closedSent);
    }
  }

  lemma DropReceiverPair(p: Side, q: Side, z: Id)
    requires PairInv(p, q) && !p.e.closing && ReceiverLive(p.e, z)
    requires LocalInv(DropReceiver(p.e, z)) && !DropReceiver(p.e, z).closing
    ensures PairInv(p.(e := DropReceiver(p.e, z)), q)
  {
    hide LinkInv, ViewOf, PairInv, LocalInv, Linked, Send, Pipe;
    PairValid(p, q);
    var c := p.e.channels[z];
    var f := Close(c.remote, []);
    var p' := p.(e := DropReceiver(p.e, z));
    SendQueues(p, f);
    SamePipe(p', p.(e := Send(p.e, f)));
    ChannelFacts(p, q, z);
    OutboundPush(ViewOf(p, q, z), f);
    DropReceiverLink(ViewOf(q, p, c.remote), f);
    ReceiverStep(p, q, p', z, c.receiver.(closed := true, dropped := true, buffer := []), Some(f));
  }

  lemma ConsumeAdds(r: Receiver, ff: bool, fb: bool)
    requires r.buffer != []
    ensures Consume(r, ff, fb).1.Some? ==> 0 < Consume(r, ff, fb).1.value.frames
  {
  }

  lemma NextChunkPair(p: Side, q: Side, z: Id, ff: bool, fb: bool)
    requires PairInv(p, q) && !p.e.closing && ReceiverLive(p.e, z)
    requires p.e.channels[z].receiver.buffer != [] && p.e.channels[z].receiver.partial.None?
    requires LocalInv(NextChunk(p.e, z, ff, fb)) && !NextChunk(p.e, z, ff, fb).closing
    ensures PairInv(p.(e := NextChunk(p.e, z, ff, fb)), q)
  {
    hide LinkInv, ViewOf, PairInv, LocalInv, Linked, Send, Pipe, Consume, Returned;
    PairValid(p, q);
    var c := p.e.channels[z];
    var p' := p.(e := NextChunk(p.e, z, ff, fb));
    var (r, add) := Consume(c.receiver, ff, fb);
    ChannelFacts(p, q, z);
    if add.None? {
      NoFrames(p, q, p', z, c.remote);
      ConsumeLink(ViewOf(q, p, c.remote), ff, fb, Ping);
      ReceiverStep(p, q, p', z, r, None);
    } else {
      var f := Adjust(c.remote, add.value.frames, add.value.bytes);
      SendQueues(p, f);
      SamePipe(p', p.(e := Send(p.e, f)));
      OutboundPush(ViewOf(p, q, z), f);
      ConsumeLink(ViewOf(q, p, c.remote), ff, fb, f);
      assert 0 < f.frames by { ConsumeAdds(c.receiver, ff, fb); }
      ReceiverStep(p, q, p', z, Returned(r, add.value), Some(f));
    }
  }

  lemma ReadPair(p: Side, q: Side, z: Id, room: nat)
    requires PairInv(p, q) && ReceiverLive(p.e, z) && p.e.channels[z].receiver.partial.Some? && LocalInv(Read(p.e, z, room).0)
    ensures PairInv(p.(e := Read(p.e, z, room).0), q)
  {
    hide LinkInv, ViewOf, PairInv, LocalInv, Linked, Pipe, Take;
    PairValid(p, q);
    var c := p.e.channels[z];
    var p' := p.(e := Read(p.e, z, room).0);
    ChannelFacts(p, q, z);
    NoFrames(p, q, p', z, c.remote);
    ReadLink(ViewOf(q, p, c.remote), room);
    ReceiverStep(p, q, p', z, Take(c.receiver, room).0, None);
  }
}
