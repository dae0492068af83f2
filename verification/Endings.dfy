/** Exactly what ends a connection between two endpoints. */
module Endings {
  import opened Wrappers
  import opened FrameCodec
  import opened ConnectionLimits
  import opened OutgoingQueue
  import opened ReceiveWindow
  import opened Endpoint
  import opened EndpointSafety
  import opened Pipes
  import opened System
  import opened SystemSteps
  import opened SystemRuns
  import opened Multiplex

  // ---------- The frames an operation has to queue ----------

  /** The queue has room for these control frames together, and each is small enough to send. */
  ghost predicate HasRoom(e: State, fs: seq<Frame>) {
    && |e.queue.frames| + |fs| <= e.limits.maxQueuedFrames
    && e.queue.bytes + TotalLength(fs) <= e.limits.maxQueuedBytes
    && forall f :: f in fs ==> FrameLength(f) <= e.limits.maxFrameSize
  }

  predicate MayOpen(e: State) { |e.pending| < e.limits.maxPendingRequests && OccupiedSlots(e) < e.limits.maxChannels }

  /** Reading the next chunk makes an Adjust due. */
  predicate AdjustDue(e: State, id: Id, fastFrames: bool, fastBytes: bool) {
    && ReceiverLive(e, id) && e.channels[id].receiver.buffer != [] && e.channels[id].receiver.partial.None?
    && Consume(e.channels[id].receiver, fastFrames, fastBytes).1.Some?
  }

  /** The control frame a local operation sends. */
  function Announced(e: State, v: Event): seq<Frame> {
    match v
    case Open(endpoint) => if MayOpen(e) then [Request(e.nextId, INITIAL_FRAME_CREDIT, INITIAL_BYTE_CREDIT, endpoint)] else []
    case AcceptHeld(r) => if r in e.held then [Accept(r.remote, e.nextId, INITIAL_FRAME_CREDIT, INITIAL_BYTE_CREDIT)] else []
    case RejectHeld(r, reason) => if r in e.held then [Reject(r.remote, reason)] else []
    case CloseChannel(id) => if Writable(e, id) then [Closed(e.channels[id].remote, [])] else []
    case LoseSender(id) => if SenderLive(e, id) && !e.channels[id].sender.closedSent then [Closed(e.channels[id].remote, [])] else []
    case LoseReceiver(id) => if ReceiverLive(e, id) then [Close(e.channels[id].remote, [])] else []
    case PullChunk(id, ff, fb) =>
      if AdjustDue(e, id, ff, fb) then
        var add := Consume(e.channels[id].receiver, ff, fb).1.value;
        [Adjust(e.channels[id].remote, add.frames, add.bytes)]
      else []
    case SendPing => if e.helloReceived then [Ping] else []
    case _ => []
  }

  /** The control frames with which a frame from the peer is answered at once. */
  function Answered(e: State, f: Frame): seq<Frame> {
    match f
    case Request(sender, _, _, endpoint) =>
      if |endpoint| > e.limits.maxControlPayload then [Reject(sender, Ascii("channel endpoint too large"))]
      else if |e.held| >= e.limits.maxPendingRequests || OccupiedSlots(e) >= e.limits.maxChannels then [Reject(sender, LimitReason())]
      else []
    case Accept(receiver, sender, _, _) =>
      if receiver !in e.pending && receiver in e.cancelled then [Close(sender, CancelReason()), Closed(sender, CancelReason())] else []
    case Ping => [Pong]
    case _ => []
  }

  // ---------- What ends the connection, as a condition on the state before ----------

  /** One more cancelled open than this side remembers. */
  predicate ForgetsOpen(e: State, v: Event) {
    v.Cleanup? && v.id in e.pending && e.pending[v.id] && |e.cancelled| >= e.limits.maxTombstones
  }

  ghost predicate LocalEnds(e: State, v: Event) {
    v.Terminate? || ForgetsOpen(e, v) || !HasRoom(e, Announced(e, v))
  }

  /** A text this side does not read; an endpoint that is too long is merely rejected. */
  predicate TooLong(l: Limits, f: Frame) { ControlPayload(f) > l.maxControlPayload && !f.Request? }

  ghost predicate DeliveryEnds(e: State, f: Frame) {
    f.ConnectionClose? || FrameLength(f) > e.limits.maxFrameSize || TooLong(e.limits, f) || !HasRoom(e, Answered(e, f))
  }

  ghost predicate Ends(p: Side, q: Side, action: Action) {
    match action
    case Local(v) => !v.Receive? && !v.PopFrame? && LocalEnds(p.e, v)
    case Transmit => false
    case Deliver => q.wire != [] && DeliveryEnds(p.e, q.wire[0])
  }

  // ---------- Sending ----------

  lemma LengthsOf(f: Frame, g: Frame)
    ensures TotalLength([]) == 0 && TotalLength([f]) == FrameLength(f) && TotalLength([f, g]) == FrameLength(f) + FrameLength(g)
  {
    assert [f][1..] == [] && [f, g][1..] == [g] && [g][1..] == [];
  }

  /** A control frame ends the connection exactly if it does not fit. */
  lemma SendExactly(e: State, f: Frame)
    requires e.limits.Valid() && !e.closing
    ensures Send(e, f).closing <==> !HasRoom(e, [f])
    ensures SendPriority(e, f).closing <==> !HasRoom(e, [f])
    ensures !Send(e, f).closing ==> Send(e, f) == e.(queue := Queue(e.queue.frames + [f], e.queue.bytes + FrameLength(f)))
  {
    LengthsOf(f, f);
    assert forall g :: g in [f] ==> g == f;
    hide TotalLength, FrameLength;
  }

  lemma SendBothExactly(e: State, f: Frame, g: Frame)
    requires e.limits.Valid() && !e.closing
    ensures Send(Send(e, f), g).closing <==> !HasRoom(e, [f, g])
  {
    LengthsOf(f, g);
    LengthsOf(g, f);
    SendExactly(e, f);
    hide TotalLength, FrameLength;
    var e' := Send(e, f);
    if e'.closing {
      assert Send(e', g) == e';
    } else {
      SendExactly(e', g);
    }
    hide Send;
    assert forall h :: h in [f, g] <==> h == f || h == g;
    assert forall h :: h in [f] <==> h == f;
    assert forall h :: h in [g] <==> h == g;
  }

  lemma NothingNeedsRoom(e: State)
    requires LocalInv(e)
    ensures HasRoom(e, [])
  {
    hide ChannelsInv;
  }

  // ---------- Local operations ----------

  lemma OpeningEnds(e: State, endpoint: Bytes)
    requires LocalInv(e) && !e.closing
    ensures OpenChannel(e, endpoint).closing <==> !HasRoom(e, Announced(e, Event.Open(endpoint)))
  {
    NothingNeedsRoom(e);
    hide LocalInv, Send, TotalLength, FrameLength;
    var id := e.nextId;
    SendExactly(e.(nextId := id + 1), Request(id, INITIAL_FRAME_CREDIT, INITIAL_BYTE_CREDIT, endpoint));
  }

  lemma AcceptingEnds(e: State, r: Incoming)
    requires LocalInv(e) && !e.closing
    ensures AcceptChannel(e, r).closing <==> !HasRoom(e, Announced(e, AcceptHeld(r)))
  {
    NothingNeedsRoom(e);
    Valid(e);
    if r in e.held { AcceptFits(e, r); }
    hide LocalInv, Send, HasRoom, NewChannel, LimitReason;
    var e1 := e.(held := e.held - multiset{r}, nextId := e.nextId + 1);
    var f := Accept(r.remote, e.nextId, INITIAL_FRAME_CREDIT, INITIAL_BYTE_CREDIT);
    SendExactly(e1, f);
    SameRoom(e, e1, [f]);
  }

  lemma RejectingEnds(e: State, r: Incoming, reason: Bytes)
    requires LocalInv(e) && !e.closing
    ensures RejectIncoming(e, r, reason).closing <==> !HasRoom(e, Announced(e, RejectHeld(r, reason)))
  {
    NothingNeedsRoom(e);
    Valid(e);
    hide LocalInv, Send, HasRoom;
    var e1 := e.(held := e.held - multiset{r});
    SendExactly(e1, Reject(r.remote, reason));
    SameRoom(e, e1, [Reject(r.remote, reason)]);
  }

  lemma SenderEnds(e: State, id: Id)
    requires LocalInv(e) && !e.closing
    ensures FinishClose(e, id).closing <==> !HasRoom(e, Announced(e, CloseChannel(id)))
    ensures DropSender(e, id).closing <==> !HasRoom(e, Announced(e, LoseSender(id)))
  {
    NothingNeedsRoom(e);
    Valid(e);
    hide LocalInv, Send, HasRoom;
    if id in e.channels { SendExactly(e, Closed(e.channels[id].remote, [])); }
  }

  lemma ReceiverEnds(e: State, id: Id)
    requires LocalInv(e) && !e.closing
    ensures DropReceiver(e, id).closing <==> !HasRoom(e, Announced(e, LoseReceiver(id)))
  {
    NothingNeedsRoom(e);
    Valid(e);
    hide LocalInv, Send, HasRoom;
    if id in e.channels { SendExactly(e, Close(e.channels[id].remote, [])); }
  }

  lemma ReadingEnds(e: State, id: Id, ff: bool, fb: bool)
    requires LocalInv(e) && !e.closing
    ensures NextChunk(e, id, ff, fb).closing <==> !HasRoom(e, Announced(e, PullChunk(id, ff, fb)))
  {
    NothingNeedsRoom(e);
    hide LocalInv, Send, TotalLength, FrameLength, HasRoom, Doubled, Growth;
    if AdjustDue(e, id, ff, fb) {
      var add := Consume(e.channels[id].receiver, ff, fb).1.value;
      SendExactly(e, Adjust(e.channels[id].remote, add.frames, add.bytes));
    }
    hide Consume;
  }

  /** A pending chunk is never too large, so sending it never ends the connection. */
  lemma FlushingGoesOn(e: State, id: Id)
    requires LocalInv(e) && !e.closing
    ensures !Flush(e, id).0.closing
  {
    if SenderLive(e, id) {
      ChannelOf(e, id);
      var c := e.channels[id];
      assert c.sender.pending.Some? ==> FrameLength(Data(c.remote, c.sender.pending.value)) <= e.limits.maxFrameSize;
    }
    hide LocalInv, ChannelsInv, FrameLength;
  }

  lemma OthersGoOn(e: State, id: Id, buf: Bytes, room: nat)
    requires e.limits.Valid() && !e.closing
    ensures !CancelOpen(e, id).closing && !Write(e, id, buf).closing && !Read(e, id, room).0.closing
    ensures !CleanupChannel(e, id).closing && !EvictTombstone(e).closing
    ensures CleanupCancelled(e, id).closing <==> ForgetsOpen(e, Cleanup(id))
    ensures Perform(e, Terminate).closing
  {
    hide WriteChunk, Take;
  }

  lemma AnnouncesNothing(e: State, v: Event)
    requires LocalInv(e)
    ensures v.Cancel? || v.Cleanup? || v.FlushChunk? || v.WriteBytes? || v.ReadBytes? || v.CleanupClosed? || v.Evict? || v.Terminate?
            ==> HasRoom(e, Announced(e, v))
    ensures v.SendPing? ==> Announced(e, v) == if e.helloReceived then [Ping] else []
    ensures v.Cleanup? <== ForgetsOpen(e, v)
  {
    NothingNeedsRoom(e);
    hide LocalInv, HasRoom;
  }

  lemma LocalEndsExactly(e: State, v: Event)
    requires LocalInv(e) && !e.closing && !v.Receive? && !v.PopFrame?
    ensures e.limits.Valid() && (Perform(e, v).closing <==> LocalEnds(e, v))
  {
    hide *;
    Valid(e);
    Performs(e, v);
    NothingNeedsRoom(e);
    AnnouncesNothing(e, v);
    LocalEndsIs(e, v);
    match v
    case Open(endpoint) => OpeningEnds(e, endpoint);
    case AcceptHeld(r) => AcceptingEnds(e, r);
    case RejectHeld(r, reason) => RejectingEnds(e, r, reason);
    case CloseChannel(id) => SenderEnds(e, id);
    case LoseSender(id) => SenderEnds(e, id);
    case LoseReceiver(id) => ReceiverEnds(e, id);
    case PullChunk(id, ff, fb) => ReadingEnds(e, id, ff, fb);
    case FlushChunk(id) => FlushingGoesOn(e, id);
    case SendPing => SendExactly(e, Ping);
    case Cancel(id) => OthersGoOn(e, id, [], 0);
    case Cleanup(id) => OthersGoOn(e, id, [], 0);
    case WriteBytes(id, buf) => OthersGoOn(e, id, buf, 0);
    case ReadBytes(id, room) => OthersGoOn(e, id, [], room);
    case CleanupClosed(id) => OthersGoOn(e, id, [], 0);
    case Evict => OthersGoOn(e, 0, [], 0);
    case Terminate => OthersGoOn(e, 0, [], 0);
  }

  lemma LocalEndsIs(e: State, v: Event)
    ensures LocalEnds(e, v) <==> v.Terminate? || ForgetsOpen(e, v) || !HasRoom(e, Announced(e, v))
  {
    hide HasRoom, Announced, ForgetsOpen;
  }

  // ---------- What is sent ----------

  /** The queue grew at its back by exactly these frames. */
  predicate Queues(e: State, e': State, fs: seq<Frame>) { e'.queue.frames == e.queue.frames + fs }

  lemma QueuesNothing(e: State, e': State)
    requires e'.queue == e.queue
    ensures Queues(e, e', [])
  {
    assert e.queue.frames + [] == e.queue.frames;
  }

  lemma OpeningSends(e: State, endpoint: Bytes)
    requires e.limits.Valid() && !e.closing && !OpenChannel(e, endpoint).closing
    ensures Queues(e, OpenChannel(e, endpoint), Announced(e, Event.Open(endpoint)))
  {
    QueuesNothing(e, e);
    hide Send, HasRoom, OccupiedSlots;
    SendExactly(e.(nextId := e.nextId + 1), Request(e.nextId, INITIAL_FRAME_CREDIT, INITIAL_BYTE_CREDIT, endpoint));
  }

  lemma AcceptingSends(e: State, r: Incoming)
    requires LocalInv(e) && !e.closing && !AcceptChannel(e, r).closing
    ensures Queues(e, AcceptChannel(e, r), Announced(e, AcceptHeld(r)))
  {
    Valid(e);
    QueuesNothing(e, e);
    if r in e.held { AcceptFits(e, r); }
    hide LocalInv, Send, HasRoom, NewChannel, LimitReason;
    var e1 := e.(held := e.held - multiset{r}, nextId := e.nextId + 1);
    SendExactly(e1, Accept(r.remote, e.nextId, INITIAL_FRAME_CREDIT, INITIAL_BYTE_CREDIT));
  }

  lemma RejectingSends(e: State, r: Incoming, reason: Bytes)
    requires e.limits.Valid() && !e.closing && !RejectIncoming(e, r, reason).closing
    ensures Queues(e, RejectIncoming(e, r, reason), Announced(e, RejectHeld(r, reason)))
  {
    QueuesNothing(e, e);
    hide Send, HasRoom;
    SendExactly(e.(held := e.held - multiset{r}), Reject(r.remote, reason));
  }

  lemma SenderSends(e: State, id: Id)
    requires e.limits.Valid() && !e.closing
    ensures !FinishClose(e, id).closing ==> Queues(e, FinishClose(e, id), Announced(e, CloseChannel(id)))
    ensures !DropSender(e, id).closing ==> Queues(e, DropSender(e, id), Announced(e, LoseSender(id)))
  {
    QueuesNothing(e, e);
    hide Send, HasRoom;
    if id in e.channels { SendExactly(e, Closed(e.channels[id].remote, [])); }
  }

  lemma ReceiverSends(e: State, id: Id)
    requires e.limits.Valid() && !e.closing && !DropReceiver(e, id).closing
    ensures Queues(e, DropReceiver(e, id), Announced(e, LoseReceiver(id)))
  {
    QueuesNothing(e, e);
    hide Send, HasRoom;
    if id in e.channels { SendExactly(e, Close(e.channels[id].remote, [])); }
  }

  lemma ReadingSends(e: State, id: Id, ff: bool, fb: bool)
    requires e.limits.Valid() && !e.closing && !NextChunk(e, id, ff, fb).closing
    ensures Queues(e, NextChunk(e, id, ff, fb), Announced(e, PullChunk(id, ff, fb)))
  {
    QueuesNothing(e, e);
    hide Send, HasRoom, Doubled, Growth;
    if AdjustDue(e, id, ff, fb) {
      var add := Consume(e.channels[id].receiver, ff, fb).1.value;
      SendExactly(e, Adjust(e.channels[id].remote, add.frames, add.bytes));
    }
    hide Consume;
  }

  lemma OthersSendNothing(e: State, v: Event)
    requires e.limits.Valid() && (v.Cancel? || v.Cleanup? || v.WriteBytes? || v.ReadBytes? || v.CleanupClosed? || v.Evict? || v.Terminate?)
    ensures Queues(e, Perform(e, v), Announced(e, v))
  {
    QueuesNothing(e, Perform(e, v));
    hide WriteChunk, Take;
  }

  /** An operation that does not end the connection queues exactly what it announces: a request with the
      caller's endpoint, an answer with its reason, an end of either half, a return of credit, or nothing. */
  lemma SendsAnnounced(e: State, v: Event)
    requires LocalInv(e) && !e.closing && !v.Receive? && !v.PopFrame? && !v.FlushChunk? && !v.SendPing? && !Perform(e, v).closing
    ensures Queues(e, Perform(e, v), Announced(e, v))
  {
    hide *;
    Valid(e);
    Performs(e, v);
    match v
    case Open(endpoint) => OpeningSends(e, endpoint);
    case AcceptHeld(r) => AcceptingSends(e, r);
    case RejectHeld(r, reason) => RejectingSends(e, r, reason);
    case CloseChannel(id) => SenderSends(e, id);
    case LoseSender(id) => SenderSends(e, id);
    case LoseReceiver(id) => ReceiverSends(e, id);
    case PullChunk(id, ff, fb) => ReadingSends(e, id, ff, fb);
    case _ => OthersSendNothing(e, v);
  }

  // ---------- Deliveries ----------

  /** The result of processing a frame says that the connection is over. */
  predicate Over(result: (State, Outcome)) { result.0.closing || result.1.Violates? || result.1.SlotAssertion? }

  lemma RequestEnds(e: State, f: Frame)
    requires LocalInv(e) && !e.closing && f.Request? && |f.endpoint| <= e.limits.maxControlPayload
    ensures Over(HandleRequest(e, f)) <==> !HasRoom(e, Answered(e, f))
  {
    NothingNeedsRoom(e);
    hide LocalInv, Send, HasRoom, LimitReason;
    SendExactly(e, Reject(f.sender, LimitReason()));
  }

  lemma LongRequestEnds(e: State, f: Frame)
    requires LocalInv(e) && !e.closing && e.helloReceived && f.Request? && |f.endpoint| > e.limits.maxControlPayload
    ensures Over(Handle(e, f)) <==> !HasRoom(e, Answered(e, f))
  {
    Valid(e);
    hide LocalInv, Send, HasRoom, Ascii;
    SendExactly(e, Reject(f.sender, Ascii("channel endpoint too large")));
  }

  lemma AcceptEnds(e: State, f: Frame)
    requires LocalInv(e) && !e.closing && f.Accept? && Benign(HandleAccept(e, f).1)
    ensures Over(HandleAccept(e, f)) <==> !HasRoom(e, Answered(e, f))
  {
    NothingNeedsRoom(e);
    hide LocalInv, Send, HasRoom, CancelReason, NewChannel, Without;
    SendBothExactly(e.(cancelled := Without(e.cancelled, f.receiver)), Close(f.sender, CancelReason()), Closed(f.sender, CancelReason()));
    SameRoom(e, e.(cancelled := Without(e.cancelled, f.receiver)), [Close(f.sender, CancelReason()), Closed(f.sender, CancelReason())]);
  }

  lemma SameRoom(e: State, e': State, fs: seq<Frame>)
    requires e'.queue == e.queue && e'.limits == e.limits
    ensures HasRoom(e', fs) <==> HasRoom(e, fs)
  {
  }

  lemma PingEnds(e: State)
    requires e.limits.Valid() && !e.closing
    ensures Over(Sent(SendPriority(e, Pong))) <==> !HasRoom(e, Answered(e, Ping))
  {
    hide SendPriority, HasRoom;
    SendExactly(e, Pong);
  }

  /** Frames of an open channel, and rejections, are answered with nothing. */
  lemma PlainGoesOn(e: State, f: Frame)
    requires e.limits.Valid() && !e.closing && !f.ConnectionClose? && !f.Request? && !f.Accept? && !f.Ping? && Benign(Dispatch(e, f).1)
    ensures !Over(Dispatch(e, f)) && Answered(e, f) == []
  {
    hide Store, SpendTombstone, FindTombstone, Without;
  }

  lemma DispatchIs(e: State, f: Frame)
    requires e.limits.Valid()
    ensures f.Request? ==> Dispatch(e, f) == HandleRequest(e, f)
    ensures f.Accept? ==> Dispatch(e, f) == HandleAccept(e, f)
    ensures f.Ping? ==> Dispatch(e, f) == Sent(SendPriority(e, Pong))
    ensures f.ConnectionClose? ==> Dispatch(e, f).0.closing
  {
    hide HandleRequest, HandleAccept, SendPriority;
  }

  lemma DispatchEnds(e: State, f: Frame)
    requires LocalInv(e) && !e.closing && Benign(Dispatch(e, f).1) && ControlPayload(f) <= e.limits.maxControlPayload
    ensures Over(Dispatch(e, f)) <==> f.ConnectionClose? || !HasRoom(e, Answered(e, f))
  {
    Valid(e);
    NothingNeedsRoom(e);
    DispatchIs(e, f);
    hide LocalInv, Dispatch, HandleRequest, HandleAccept, HasRoom, Answered, SendPriority, Sent;
    match f
    case Request(_, _, _, _) => RequestEnds(e, f);
    case Accept(_, _, _, _) => AcceptEnds(e, f);
    case Ping => PingEnds(e);
    case ConnectionClose(_) =>
    case _ => PlainGoesOn(e, f);
  }

  lemma HandleSplit(e: State, f: Frame)
    requires e.limits.Valid() && (e.helloReceived || f.Hello?)
    ensures TooLong(e.limits, f) ==> Handle(e, f) == (e, Violates(PayloadTooLarge))
    ensures ControlPayload(f) <= e.limits.maxControlPayload ==> Handle(e, f) == Dispatch(e, f)
  {
    hide Dispatch, Send, Ascii;
  }

  /** What processing a frame that is no violation in itself comes to. */
  lemma HandleEnds(e: State, f: Frame)
    requires LocalInv(e) && !e.closing && (e.helloReceived || f.Hello?) && Benign(Handle(e, f).1)
    ensures Over(Handle(e, f)) <==> f.ConnectionClose? || TooLong(e.limits, f) || !HasRoom(e, Answered(e, f))
  {
    Valid(e);
    NothingNeedsRoom(e);
    HandleSplit(e, f);
    if TooLong(e.limits, f) {
    } else if f.Request? && ControlPayload(f) > e.limits.maxControlPayload {
      hide LocalInv, HasRoom, Answered;
      LongRequestEnds(e, f);
    } else {
      hide LocalInv, Handle, Dispatch, HasRoom, Answered;
      DispatchEnds(e, f);
    }
  }

  lemma ReceivingOver(e: State, f: Frame)
    requires e.limits.Valid()
    ensures Receiving(e, f).closing <==> FrameLength(f) > e.limits.maxFrameSize || Over(Handle(e, f))
  {
    hide Handle, FrameLength;
  }

  // ---------- What is answered ----------

  lemma RequestAnswered(e: State, f: Frame)
    requires e.limits.Valid() && !e.closing && e.helloReceived && f.Request? && !Over(Handle(e, f))
    ensures Queues(e, Handle(e, f).0, Answered(e, f))
  {
    hide Send, HasRoom, LimitReason, Ascii;
    QueuesNothing(e, Handle(e, f).0.(queue := e.queue));
    SendExactly(e, Reject(f.sender, LimitReason()));
    SendExactly(e, Reject(f.sender, Ascii("channel endpoint too large")));
  }

  lemma AcceptAnswered(e: State, f: Frame)
    requires e.limits.Valid() && !e.closing && f.Accept? && !Over(HandleAccept(e, f))
    ensures Queues(e, HandleAccept(e, f).0, Answered(e, f))
  {
    hide Send, HasRoom, CancelReason, NewChannel, Without;
    QueuesNothing(e, HandleAccept(e, f).0.(queue := e.queue));
    var close, closed := Close(f.sender, CancelReason()), Closed(f.sender, CancelReason());
    var e1 := e.(cancelled := Without(e.cancelled, f.receiver));
    SendExactly(e1, close);
    ClosingStays(e1, close, closed);
    if !Send(e1, close).closing {
      SendExactly(Send(e1, close), closed);
      assert e.queue.frames + [close] + [closed] == e.queue.frames + [close, closed];
    }
  }

  lemma ClosingStays(e: State, f: Frame, g: Frame)
    requires e.limits.Valid()
    ensures Send(e, f).limits.Valid() && (Send(e, f).closing ==> Send(Send(e, f), g).closing)
  {
    hide TryQueue;
  }

  lemma PlainAnswered(e: State, f: Frame)
    requires e.limits.Valid() && !f.Request? && !f.Accept? && !f.Ping?
    ensures Queues(e, Handle(e, f).0, Answered(e, f))
  {
    QueuesNothing(e, Handle(e, f).0);
    hide Store, SpendTombstone, FindTombstone, Without;
  }

  lemma PongSent(e: State)
    requires e.limits.Valid() && !e.closing && e.helloReceived && !Over(Handle(e, Ping))
    ensures TryQueuePriority(e.queue, Pong, e.limits) == Queued(Handle(e, Ping).0.queue)
  {
    hide TryQueuePriority;
  }

  /** A frame that does not end the connection is answered with exactly these frames: a Ping with a Pong
      in the priority lane, a request that is refused with its reason, a late accept with both ends of
      the channel nobody wants, and anything else with nothing. */
  lemma SendsAnswers(e: State, f: Frame)
    requires LocalInv(e) && !e.closing && (e.helloReceived || f.Hello?) && !Over(Handle(e, f))
    ensures if f.Ping? then TryQueuePriority(e.queue, Pong, e.limits) == Queued(Handle(e, f).0.queue)
            else Queues(e, Handle(e, f).0, Answered(e, f))
  {
    Valid(e);
    HandleSplit(e, f);
    DispatchIs(e, f);
    hide LocalInv, Handle, Dispatch, HandleRequest, HandleAccept, Answered, Over, Queues;
    match f
    case Request(_, _, _, _) => RequestAnswered(e, f);
    case Accept(_, _, _, _) => AcceptAnswered(e, f);
    case Ping => PongSent(e);
    case _ => PlainAnswered(e, f);
  }

  // ---------- In every run ----------

  lemma DeliveryEndsExactly(p: Side, q: Side)
    requires PairInv(p, q) && Up(p, q) && p.e.limits.Valid() && q.wire != []
    ensures Receiving(p.e, q.wire[0]).closing <==> DeliveryEnds(p.e, q.wire[0])
  {
    HandleDelivered(p, q);
    Greeted(p, q);
    PairParts(p, q);
    hide *;
    var f := q.wire[0];
    HandleEnds(p.e, f);
    ReceivingOver(p.e, f);
    DeliveryEndsIs(p.e, f);
  }

  lemma DeliveryEndsIs(e: State, f: Frame)
    ensures DeliveryEnds(e, f) <==> f.ConnectionClose? || FrameLength(f) > e.limits.maxFrameSize || TooLong(e.limits, f) || !HasRoom(e, Answered(e, f))
  {
    hide HasRoom, Answered, FrameLength, TooLong;
  }

  /** In every run a step ends the connection exactly under this condition on the state before it:
      the side gives up, or forgets a cancelled open, or has no room for what the step sends; or the
      frame it processes is larger than it allows, carries a longer text than it reads, or asks for
      an answer there is no room for. */
  lemma ConnectionEnds(a: Limits, b: Limits, ms: seq<Move>, m: Move)
    requires a.Valid() && b.Valid() && Multiplex.Open(Multiplex.Run(a, b, ms))
    ensures var s := Multiplex.Run(a, b, ms);
            !Multiplex.Open(Multiplex.Step(s, m)) <==> Ends(Mine(s, m.byA), Theirs(s, m.byA), m.action)
  {
    hide PairInv, Multiplex.Run;
    SideInv(a, b, ms, m.byA);
    var s := Multiplex.Run(a, b, ms);
    var p, q := Mine(s, m.byA), Theirs(s, m.byA);
    ActEnds(p, q, m.action);
    hide Act, Ends;
  }

  lemma LocalStepEnds(p: Side, q: Side, v: Event)
    requires PairInv(p, q) && Up(p, q) && p.e.limits.Valid()
    ensures var (p', q') := LocalStep(p, q, v); Up(p', q') <==> v.Receive? || v.PopFrame? || !LocalEnds(p.e, v)
  {
    PairParts(p, q);
    hide PairInv, LocalInv, LocalEnds, Perform;
    if !v.Receive? && !v.PopFrame? {
      LocalEndsExactly(p.e, v);
      LocalClosing(p, q, v);
    }
  }

  lemma LocalClosing(p: Side, q: Side, v: Event)
    requires p.e.limits.Valid() && !v.Receive? && !v.PopFrame?
    ensures var (p', q') := LocalStep(p, q, v); p'.e == Perform(p.e, v) && q'.e == q.e
  {
    hide Perform;
  }

  lemma TransmitGoesOn(p: Side)
    ensures TransmitStep(p).e.closing == p.e.closing
  {
    hide FrameLength;
  }

  lemma ActEnds(p: Side, q: Side, action: Action)
    requires PairInv(p, q) && Up(p, q) && p.e.limits.Valid()
    ensures var (p', q') := Act(p, q, action); Up(p', q') <==> !Ends(p, q, action)
  {
    hide PairInv, LocalStep, TransmitStep, Receiving, LocalEnds, DeliveryEnds;
    match action
    case Local(v) => LocalStepEnds(p, q, v);
    case Transmit => TransmitGoesOn(p);
    case Deliver => if q.wire != [] { DeliveryEndsExactly(p, q); }
  }
}
