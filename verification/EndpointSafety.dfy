/** What one endpoint keeps against any peer whatsoever: the slot bound, the receive windows, the
    queue budget, and the assertions that therefore never fire. */
module EndpointSafety {
  import opened Wrappers
  import opened FrameCodec
  import opened ConnectionLimits
  import opened OutgoingQueue
  import opened ReceiveWindow
  import opened Endpoint

  ghost predicate ChannelInv(c: Channel, l: Limits)
    requires l.Valid()
  {
    && WindowInv(c.receiver) && c.receiver.limit == Credits(l.receiveFrameLimit, l.receiveByteLimit)
    && SenderInv(c.sender, l.MaxPayload())
    && DroppedIsEmpty(c.receiver)
  }

  /** A dropped half keeps no data. */
  predicate DroppedIsEmpty(r: Receiver) { r.dropped ==> r.closed && r.buffer == [] }

  ghost predicate ChannelsInv(channels: map<Id, Channel>, l: Limits)
    requires l.Valid()
  {
    forall id :: id in channels ==> ChannelInv(channels[id], l)
  }

  ghost predicate SlotsInv(e: State) {
    && OccupiedSlots(e) <= e.limits.maxChannels
    && |e.pending| <= e.limits.maxPendingRequests && |e.held| <= e.limits.maxPendingRequests
    && |e.cancelled| <= e.limits.maxTombstones
  }

  ghost predicate InU32(c: Credits) { c.frames <= U32_MAX && c.bytes <= U32_MAX }

  ghost predicate LocalInv(e: State) {
    && e.limits.Valid()
    && SlotsInv(e)
    && Consistent(e.queue, e.limits)
    && ChannelsInv(e.channels, e.limits)
    && forall r :: r in e.held ==> InU32(r.credit)
  }

  /** Everything that can happen at one endpoint; `Receive` delivers an arbitrary frame. */
  datatype Event =
    | Open(endpoint: Bytes) | Cancel(id: Id) | Cleanup(id: Id)
    | AcceptHeld(r: Incoming) | RejectHeld(r: Incoming, reason: Bytes)
    | FlushChunk(id: Id) | WriteBytes(id: Id, buf: Bytes) | CloseChannel(id: Id)
    | LoseSender(id: Id) | LoseReceiver(id: Id)
    | PullChunk(id: Id, fastFrames: bool, fastBytes: bool) | ReadBytes(id: Id, room: nat)
    | CleanupClosed(id: Id) | Evict | SendPing | PopFrame | Terminate
    | Receive(f: Frame)

  function PopQueue(e: State): State {
    if e.queue.frames == [] || e.queue.bytes < FrameLength(e.queue.frames[0]) then e
    else e.(queue := Queue(e.queue.frames[1..], e.queue.bytes - FrameLength(e.queue.frames[0])))
  }

  function Perform(e: State, v: Event): State
    requires e.limits.Valid()
  {
    match v
    case Open(endpoint) => OpenChannel(e, endpoint)
    case Cancel(id) => CancelOpen(e, id)
    case Cleanup(id) => CleanupCancelled(e, id)
    case AcceptHeld(r) => AcceptChannel(e, r)
    case RejectHeld(r, reason) => RejectIncoming(e, r, reason)
    case FlushChunk(id) => Flush(e, id).0
    case WriteBytes(id, buf) => Write(e, id, buf)
    case CloseChannel(id) => FinishClose(e, id)
    case LoseSender(id) => DropSender(e, id)
    case LoseReceiver(id) => DropReceiver(e, id)
    case PullChunk(id, ff, fb) => NextChunk(e, id, ff, fb)
    case ReadBytes(id, room) => Read(e, id, room).0
    case CleanupClosed(id) => CleanupChannel(e, id)
    case Evict => EvictTombstone(e)
    case SendPing => if e.helloReceived then SendPriority(e, Ping) else e
    case PopFrame => PopQueue(e)
    case Terminate => e.(closing := true)
    case Receive(f) => Handle(e, f).0
  }

  // ---------- Preservation, piece by piece ----------

  /** Sending touches the queue and the closing flag only. */
  lemma SendKeeps(e: State, f: Frame)
    requires LocalInv(e)
    ensures LocalInv(Send(e, f)) && Send(e, f) == e.(queue := Send(e, f).queue, closing := Send(e, f).closing)
  {
    if TryQueue(e.queue, f, false, e.limits).Queued? { QueueingKeepsBudget(e.queue, f, false, e.limits); }
  }

  lemma SendPriorityKeeps(e: State, f: Frame)
    requires LocalInv(e)
    ensures LocalInv(SendPriority(e, f))
  {
    if TryQueuePriority(e.queue, f, e.limits).Queued? { PriorityKeepsBudget(e.queue, f, e.limits); }
  }

  lemma NewChannelInv(remote: Id, c: Credits, l: Limits)
    requires l.Valid() && InU32(c)
    ensures ChannelInv(NewChannel(remote, c, l), l)
  {
  }

  lemma ChannelOf(e: State, id: Id)
    requires LocalInv(e) && id in e.channels
    ensures ChannelInv(e.channels[id], e.limits)
  {
  }

  lemma UpdateKeeps(e: State, id: Id, c: Channel)
    requires LocalInv(e) && id in e.channels && ChannelInv(c, e.limits)
    ensures LocalInv(e.(channels := e.channels[id := c]))
  {
    var channels := e.channels[id := c];
    assert channels.Keys == e.channels.Keys;
    assert |channels| == |e.channels|;
  }

  lemma SenderKeeps(e: State, id: Id, s: Sender)
    requires LocalInv(e) && id in e.channels && SenderInv(s, e.limits.MaxPayload())
    ensures LocalInv(WithSender(e, id, s))
  {
    ChannelOf(e, id);
    UpdateKeeps(e, id, e.channels[id].(sender := s));
  }

  lemma ReceiverKeeps(e: State, id: Id, r: Receiver)
    requires LocalInv(e) && id in e.channels && WindowInv(r) && r.limit == e.channels[id].receiver.limit && DroppedIsEmpty(r)
    ensures LocalInv(WithReceiver(e, id, r))
  {
    ChannelOf(e, id);
    UpdateKeeps(e, id, e.channels[id].(receiver := r));
  }

  lemma OpenKeeps(e: State, endpoint: Bytes)
    requires LocalInv(e)
    ensures LocalInv(OpenChannel(e, endpoint))
  {
    var id := e.nextId;
    SendKeeps(e.(nextId := id + 1), Request(id, INITIAL_FRAME_CREDIT, INITIAL_BYTE_CREDIT, endpoint));
  }

  lemma ReleaseSlot(e: State, r: Incoming)
    requires LocalInv(e) && r in e.held
    ensures LocalInv(e.(held := e.held - multiset{r})) && |e.held - multiset{r}| == |e.held| - 1
  {
  }

  /** The slot of a held request always has room for its channel. */
  lemma AcceptFits(e: State, r: Incoming)
    requires LocalInv(e) && r in e.held
    ensures |e.channels| < e.limits.maxChannels
  {
    ReleaseSlot(e, r);
  }

  lemma InsertKeeps(e: State, id: Id, c: Channel)
    requires LocalInv(e) && ChannelInv(c, e.limits) && OccupiedSlots(e) < e.limits.maxChannels
    ensures LocalInv(e.(channels := e.channels[id := c]))
  {
    hide ChannelInv, Consistent;
    var channels := e.channels[id := c];
    assert channels.Keys == e.channels.Keys + {id};
    assert |channels.Keys| <= |e.channels.Keys| + 1;
  }

  /** The slot given up, and the answer to send. */
  function SlotGiven(e: State, r: Incoming): State { e.(held := e.held - multiset{r}, nextId := e.nextId + 1) }

  function AnswerTo(e: State, r: Incoming): Frame { Accept(r.remote, e.nextId, INITIAL_FRAME_CREDIT, INITIAL_BYTE_CREDIT) }

  lemma AcceptIs(e: State, r: Incoming)
    requires e.limits.Valid()
    ensures r !in e.held ==> AcceptChannel(e, r) == e
    ensures r in e.held && |e.channels| < e.limits.maxChannels ==>
              var e2 := Send(SlotGiven(e, r), AnswerTo(e, r));
              AcceptChannel(e, r) == if e2.closing then e2 else e2.(channels := e2.channels[e.nextId := NewChannel(r.remote, r.credit, e.limits)])
  {
    hide Send, NewChannel, LimitReason;
  }

  lemma AcceptKeeps(e: State, r: Incoming)
    requires LocalInv(e)
    ensures LocalInv(AcceptChannel(e, r))
  {
    Valid(e);
    AcceptIs(e, r);
    if r in e.held {
      SlotReleased(e, r);
      NewChannelInv(r.remote, r.credit, e.limits);
      hide LocalInv, ChannelInv, Send, NewChannel, OccupiedSlots, AcceptChannel;
      var e1, f := SlotGiven(e, r), AnswerTo(e, r);
      SendKeeps(e1, f);
      SameSlots(e1, Send(e1, f));
      InsertKeeps(Send(e1, f), e.nextId, NewChannel(r.remote, r.credit, e.limits));
    }
    hide LocalInv, AcceptChannel;
  }

  lemma SameSlots(e: State, e': State)
    requires e' == e.(queue := e'.queue, closing := e'.closing)
    ensures OccupiedSlots(e') == OccupiedSlots(e)
  {
  }

  lemma SlotReleased(e: State, r: Incoming)
    requires LocalInv(e) && r in e.held
    ensures var e1 := e.(held := e.held - multiset{r}, nextId := e.nextId + 1);
            LocalInv(e1) && OccupiedSlots(e1) < e.limits.maxChannels && |e.channels| < e.limits.maxChannels
    ensures e.limits.Valid() && InU32(r.credit)
  {
    hide ChannelsInv, Consistent;
    ReleaseSlot(e, r);
  }

  lemma RejectKeeps(e: State, r: Incoming, reason: Bytes)
    requires LocalInv(e)
    ensures LocalInv(RejectIncoming(e, r, reason))
  {
    if r in e.held {
      ReleaseSlot(e, r);
      SendKeeps(e.(held := e.held - multiset{r}), Reject(r.remote, reason));
    }
  }

  lemma QueueDataKeeps(e: State, f: Frame)
    requires LocalInv(e) && TryQueue(e.queue, f, true, e.limits).Queued?
    ensures LocalInv(e.(queue := TryQueue(e.queue, f, true, e.limits).queue))
  {
    QueueingKeepsBudget(e.queue, f, true, e.limits);
  }

  lemma FlushChunkKeeps(e: State, id: Id)
    requires LocalInv(e) && SenderLive(e, id) && !e.closing
    requires var s := e.channels[id].sender; s.pending.Some? && !s.closed && 0 < s.credit.frames
    ensures LocalInv(Flush(e, id).0) && Flush(e, id).1 != CreditAssertion
  {
    var c := e.channels[id];
    ChannelOf(e, id);
    var f := Data(c.remote, c.sender.pending.value);
    assert FrameLength(f) <= e.limits.maxFrameSize;
    if TryQueue(e.queue, f, true, e.limits).Queued? {
      QueueDataKeeps(e, f);
      SenderKeeps(e.(queue := TryQueue(e.queue, f, true, e.limits).queue), id, ChunkSent(c.sender));
    }
    hide LocalInv;
  }

  lemma FlushKeeps(e: State, id: Id)
    requires LocalInv(e)
    ensures LocalInv(Flush(e, id).0) && Flush(e, id).1 != CreditAssertion
  {
    if SenderLive(e, id) {
      var s := e.channels[id].sender;
      ChannelOf(e, id);
      SenderKeeps(e, id, s.(closed := true));
      if s.pending.Some? && !s.closed && s.credit.frames > 0 && !e.closing {
        FlushChunkKeeps(e, id);
      }
      hide LocalInv, TryQueue;
    }
  }

  lemma WriteKeeps(e: State, id: Id, buf: Bytes)
    requires LocalInv(e)
    ensures LocalInv(Write(e, id, buf))
  {
    if SenderLive(e, id) {
      ChannelOf(e, id);
      var s := e.channels[id].sender;
      if s.pending.None? && !s.closedSent { SenderKeeps(e, id, WriteChunk(s, buf, e.limits.MaxPayload()).0); }
      hide LocalInv;
    }
  }

  lemma EndSenderKeeps(e: State, id: Id)
    requires LocalInv(e)
    ensures LocalInv(FinishClose(e, id)) && LocalInv(DropSender(e, id))
  {
    if SenderLive(e, id) {
      var c := e.channels[id];
      ChannelOf(e, id);
      SendKeeps(e, Closed(c.remote, []));
      var e' := Send(e, Closed(c.remote, []));
      if c.sender.pending.None? { SenderKeeps(e', id, c.sender.(closedSent := true, closed := true)); }
      SenderKeeps(e', id, c.sender.(closed := true, dropped := true));
      SenderKeeps(e, id, c.sender.(closed := true, dropped := true));
      hide LocalInv, Send;
    }
  }

  lemma DropReceiverKeeps(e: State, id: Id)
    requires LocalInv(e)
    ensures LocalInv(DropReceiver(e, id))
  {
    if ReceiverLive(e, id) {
      var c := e.channels[id];
      ChannelOf(e, id);
      SendKeeps(e, Close(c.remote, []));
      var r := c.receiver.(closed := true, dropped := true, buffer := []);
      ReceiverKeeps(e, id, r);
      ReceiverKeeps(Send(e, Close(c.remote, [])), id, r);
      hide LocalInv, Send;
    }
  }

  lemma NextChunkKeeps(e: State, id: Id, ff: bool, fb: bool)
    requires LocalInv(e)
    ensures LocalInv(NextChunk(e, id, ff, fb))
  {
    if ReceiverLive(e, id) && e.channels[id].receiver.buffer != [] {
      var c := e.channels[id];
      ChannelOf(e, id);
      ConsumeKeepsWindow(c.receiver, ff, fb);
      var (r, add) := Consume(c.receiver, ff, fb);
      assert r.limit == c.receiver.limit;
      hide Consume;
      ReceiverKeeps(e, id, r);
      if add.Some? {
        var f := Adjust(c.remote, add.value.frames, add.value.bytes);
        SendKeeps(e, f);
        ReceiverKeeps(Send(e, f), id, r);
        ReceiverKeeps(Send(e, f), id, Returned(r, add.value));
      }
      hide LocalInv, Send;
    }
  }

  lemma ReadKeeps(e: State, id: Id, room: nat)
    requires LocalInv(e)
    ensures LocalInv(Read(e, id, room).0)
  {
    if ReceiverLive(e, id) && e.channels[id].receiver.partial.Some? {
      ChannelOf(e, id);
      ReceiverKeeps(e, id, Take(e.channels[id].receiver, room).0);
      hide LocalInv;
    }
  }

  lemma CleanupChannelKeeps(e: State, id: Id)
    requires LocalInv(e)
    ensures LocalInv(CleanupChannel(e, id))
  {
    hide ChannelInv, Consistent;
    if id in e.channels {
      var channels := e.channels - {id};
      assert |channels| == |e.channels| - 1;
    }
  }

  lemma CleanupCancelledKeeps(e: State, id: Id)
    requires LocalInv(e)
    ensures LocalInv(CleanupCancelled(e, id))
  {
    hide ChannelsInv;
    if id in e.pending {
      var pending := e.pending - {id};
      assert |pending| == |e.pending| - 1;
    }
  }

  lemma CancelKeeps(e: State, id: Id)
    requires LocalInv(e)
    ensures LocalInv(CancelOpen(e, id))
  {
    hide ChannelsInv;
    if id in e.pending {
      var pending := e.pending[id := true];
      assert pending.Keys == e.pending.Keys;
      assert |pending| == |e.pending|;
    }
  }

  lemma PopKeepsBudget(e: State)
    requires LocalInv(e)
    ensures LocalInv(PopQueue(e))
  {
  }

  lemma RequestFrameKeeps(e: State, f: Frame)
    requires LocalInv(e) && f.Request? && InU32(Credits(f.frames, f.bytes))
    ensures LocalInv(HandleRequest(e, f).0) && HandleRequest(e, f).1 != SlotAssertion
  {
    SendKeeps(e, Reject(f.sender, LimitReason()));
    hide Send;
  }

  lemma AcceptFrameKeeps(e: State, f: Frame)
    requires LocalInv(e) && f.Accept? && InU32(Credits(f.frames, f.bytes))
    ensures LocalInv(HandleAccept(e, f).0) && HandleAccept(e, f).1 != SlotAssertion
  {
    hide Send, ChannelsInv, NewChannel, ChannelInv, Consistent, Without;
    var id := f.receiver;
    if id in e.pending {
      var e' := e.(pending := e.pending - {id});
      assert |e'.pending| == |e.pending| - 1;
      NewChannelInv(f.sender, Credits(f.frames, f.bytes), e.limits);
      InsertKeeps(e', id, NewChannel(f.sender, Credits(f.frames, f.bytes), e.limits));
    } else if id in e.cancelled {
      WithoutLength(e.cancelled, id);
      var e1 := e.(cancelled := Without(e.cancelled, id));
      assert LocalInv(e1);
      hide LocalInv;
      SendKeeps(e1, Close(f.sender, CancelReason()));
      var e2 := Send(e1, Close(f.sender, CancelReason()));
      SendKeeps(e2, Closed(f.sender, CancelReason()));
      BuriedKeeps(Send(e2, Closed(f.sender, CancelReason())), e.tombstones + [Tombstone(id, INITIAL_CREDITS)]);
    }
  }

  lemma BuriedKeeps(e: State, ts: seq<Tombstone>)
    requires LocalInv(e)
    ensures LocalInv(e.(tombstones := ts))
  {
    hide ChannelInv;
  }

  lemma {:induction false} WithoutLength(ids: seq<Id>, id: Id)
    ensures |Without(ids, id)| == if id in ids then |ids| - 1 else |ids|
  {
    if ids != [] && ids[0] != id { WithoutLength(ids[1..], id); }
  }

  lemma RejectFrameKeeps(e: State, id: Id)
    requires LocalInv(e)
    ensures LocalInv(HandleReject(e, id).0) && HandleReject(e, id).1 != SlotAssertion
  {
    WithoutLength(e.cancelled, id);
  }

  lemma DataFrameKeeps(e: State, id: Id, payload: Bytes)
    requires LocalInv(e)
    ensures LocalInv(HandleData(e, id, payload).0) && HandleData(e, id, payload).1 != SlotAssertion
  {
    if id in e.channels {
      var r := e.channels[id].receiver;
      ChannelOf(e, id);
      if 0 < r.credit.frames && |payload| <= r.credit.bytes {
        StoreKeepsWindow(r, payload);
        ReceiverKeeps(e, id, Store(r, payload));
        hide LocalInv;
      }
    }
  }

  lemma AdjustFrameKeeps(e: State, id: Id, add: Credits)
    requires LocalInv(e)
    ensures LocalInv(HandleAdjust(e, id, add).0) && HandleAdjust(e, id, add).1 != SlotAssertion
  {
    hide LocalInv, ChannelInv, WindowInv, RecentlyClosed;
    if id in e.channels {
      var c := e.channels[id];
      SenderOfChannel(e, id);
      var s := c.sender.(credit := Credits(c.sender.credit.frames + add.frames, c.sender.credit.bytes + add.bytes));
      if InU32(s.credit) && (add.frames > 0 || add.bytes > 0) {
        GrownSender(c.sender, s, e.limits.MaxPayload());
        hide SenderInv;
        SenderKeeps(e, id, s);
      }
    }
    NotAsserted(e, id);
  }

  lemma NotAsserted(e: State, id: Id)
    ensures RecentlyClosed(e, id) != SlotAssertion
  {
  }

  lemma SenderOfChannel(e: State, id: Id)
    requires LocalInv(e) && id in e.channels
    ensures e.limits.Valid() && SenderInv(e.channels[id].sender, e.limits.MaxPayload())
  {
    ChannelOf(e, id);
  }

  lemma GrownSender(s: Sender, s': Sender, maxPayload: nat)
    requires SenderInv(s, maxPayload) && s' == s.(credit := s'.credit) && InU32(s'.credit)
    requires s.credit.frames <= s'.credit.frames && s.credit.bytes <= s'.credit.bytes
    ensures SenderInv(s', maxPayload)
  {
  }

  lemma CloseFramesKeep(e: State, id: Id)
    requires LocalInv(e)
    ensures LocalInv(HandleClose(e, id).0) && HandleClose(e, id).1 != SlotAssertion
    ensures LocalInv(HandleClosed(e, id).0) && HandleClosed(e, id).1 != SlotAssertion
  {
    if id in e.channels {
      var c := e.channels[id];
      ChannelOf(e, id);
      SenderKeeps(e, id, c.sender.(closed := true));
      ReceiverKeeps(e, id, c.receiver.(closed := true));
      hide LocalInv;
    }
  }

  /** The frame's credits fit the 32-bit fields they are decoded from. */
  ghost predicate Decoded(f: Frame) {
    (f.Accept? || f.Request?) ==> InU32(Credits(f.frames, f.bytes))
  }

  /** Which handler a frame goes to. */
  lemma DispatchedTo(e: State, f: Frame)
    requires e.limits.Valid()
    ensures f.Request? ==> Dispatch(e, f) == HandleRequest(e, f)
    ensures f.Accept? ==> Dispatch(e, f) == HandleAccept(e, f)
    ensures f.Reject? ==> Dispatch(e, f) == HandleReject(e, f.receiver)
    ensures f.Data? ==> Dispatch(e, f) == HandleData(e, f.receiver, f.payload)
    ensures f.Adjust? ==> Dispatch(e, f) == HandleAdjust(e, f.receiver, Credits(f.frames, f.bytes))
    ensures f.Close? ==> Dispatch(e, f) == HandleClose(e, f.receiver)
    ensures f.Closed? ==> Dispatch(e, f) == HandleClosed(e, f.receiver)
    ensures f.Ping? ==> Dispatch(e, f).0 == SendPriority(e, Pong) && Dispatch(e, f).1 != SlotAssertion
    ensures f.Hello? || f.ConnectionClose? || f.Pong? ==>
              Dispatch(e, f).1 != SlotAssertion
              && Dispatch(e, f).0 == e.(helloReceived := Dispatch(e, f).0.helloReceived, closing := Dispatch(e, f).0.closing)
  {
    hide HandleRequest, HandleAccept, HandleReject, HandleData, HandleAdjust, HandleClose, HandleClosed, SendPriority;
  }

  lemma FlagsKeep(e: State, helloReceived: bool, closing: bool)
    requires LocalInv(e)
    ensures LocalInv(e.(helloReceived := helloReceived, closing := closing))
  {
    hide ChannelsInv;
  }

  lemma DispatchKeeps(e: State, f: Frame)
    requires LocalInv(e) && Decoded(f)
    ensures LocalInv(Dispatch(e, f).0) && Dispatch(e, f).1 != SlotAssertion
  {
    Valid(e);
    assert f.Accept? || f.Request? ==> InU32(Credits(f.frames, f.bytes));
    hide *;
    DispatchedTo(e, f);
    match f
    case Request(_, _, _, _) => RequestFrameKeeps(e, f);
    case Accept(_, _, _, _) => AcceptFrameKeeps(e, f);
    case Reject(id, _) => RejectFrameKeeps(e, id);
    case Data(id, payload) => DataFrameKeeps(e, id, payload);
    case Adjust(id, frames, bytes) => AdjustFrameKeeps(e, id, Credits(frames, bytes));
    case Close(id, _) => CloseFramesKeep(e, id);
    case Closed(id, _) => CloseFramesKeep(e, id);
    case Ping => SendPriorityKeeps(e, Pong);
    case _ => FlagsKeep(e, Dispatch(e, f).0.helloReceived, Dispatch(e, f).0.closing);
  }

  lemma ReceiveKeeps(e: State, f: Frame)
    requires LocalInv(e) && Decoded(f)
    ensures LocalInv(Handle(e, f).0) && Handle(e, f).1 != SlotAssertion
  {
    if f.Request? { SendKeeps(e, Reject(f.sender, Ascii("channel endpoint too large"))); }
    DispatchKeeps(e, f);
    hide LocalInv, Dispatch, Send;
  }

  lemma EventKeeps(e: State, v: Event)
    requires LocalInv(e) && (v.Receive? ==> Decoded(v.f))
    ensures LocalInv(Perform(e, v))
  {
    hide *;
    Valid(e);
    Performs(e, v);
    match v
    case Open(endpoint) => OpenKeeps(e, endpoint);
    case Cancel(id) => CancelKeeps(e, id);
    case Cleanup(id) => CleanupCancelledKeeps(e, id);
    case AcceptHeld(r) => AcceptKeeps(e, r);
    case RejectHeld(r, reason) => RejectKeeps(e, r, reason);
    case FlushChunk(id) => FlushKeeps(e, id);
    case WriteBytes(id, buf) => WriteKeeps(e, id, buf);
    case CloseChannel(id) => EndSenderKeeps(e, id);
    case LoseSender(id) => EndSenderKeeps(e, id);
    case LoseReceiver(id) => DropReceiverKeeps(e, id);
    case PullChunk(id, ff, fb) => NextChunkKeeps(e, id, ff, fb);
    case ReadBytes(id, room) => ReadKeeps(e, id, room);
    case CleanupClosed(id) => CleanupChannelKeeps(e, id);
    case Evict => EvictKeeps(e);
    case SendPing => SendPriorityKeeps(e, Ping);
    case PopFrame => PopKeepsBudget(e); TrivialKeeps(e);
    case Terminate => TrivialKeeps(e);
    case Receive(f) => ReceiveKeeps(e, f);
  }

  lemma Valid(e: State)
    requires LocalInv(e)
    ensures e.limits.Valid()
  {
  }

  lemma EvictKeeps(e: State)
    requires LocalInv(e)
    ensures LocalInv(EvictTombstone(e))
  {
    BuriedKeeps(e, EvictTombstone(e).tombstones);
    hide LocalInv;
  }

  lemma TrivialKeeps(e: State)
    requires LocalInv(e)
    ensures LocalInv(Perform(e, Terminate)) && LocalInv(Perform(e, PopFrame))
  {
    FlagsKeep(e, e.helloReceived, true);
    PopKeepsBudget(e);
    hide LocalInv, PopQueue;
  }

  /** The state after a sequence of events, starting from `e`. */
  function RunEvents(e: State, vs: seq<Event>): State
    requires e.limits.Valid()
    decreases |vs|
  {
    if vs == [] then e
    else
      LimitsFixed(e, vs[0]);
      RunEvents(Perform(e, vs[0]), vs[1..])
  }

  lemma SendLimits()
    ensures forall e: State, f: Frame :: e.limits.Valid() ==> Send(e, f).limits == e.limits
    ensures forall e: State, f: Frame :: e.limits.Valid() ==> SendPriority(e, f).limits == e.limits
  {
    hide TryQueue, TryQueuePriority;
  }

  lemma HandleLimits(e: State, f: Frame)
    requires e.limits.Valid()
    ensures Handle(e, f).0.limits == e.limits
  {
    hide Send, SendPriority, Ascii;
    SendLimits();
  }

  lemma SenderLimits(e: State, id: Id, buf: Bytes)
    requires e.limits.Valid()
    ensures Flush(e, id).0.limits == Write(e, id, buf).limits == FinishClose(e, id).limits == DropSender(e, id).limits == e.limits
  {
    hide Send, TryQueue, WriteChunk, ChunkSent;
    SendLimits();
  }

  lemma ReceiverLimits(e: State, id: Id, ff: bool, fb: bool, room: nat)
    requires e.limits.Valid()
    ensures DropReceiver(e, id).limits == Read(e, id, room).0.limits == e.limits
    ensures NextChunk(e, id, ff, fb).limits == e.limits
  {
    hide Send, Doubled, Growth;
    SendLimits();
  }

  lemma OpenLimits(e: State, endpoint: Bytes)
    requires e.limits.Valid()
    ensures OpenChannel(e, endpoint).limits == e.limits
  {
    SendLimits();
    hide Send, OccupiedSlots;
  }

  lemma AnswerLimits(e: State, r: Incoming, reason: Bytes)
    requires e.limits.Valid()
    ensures AcceptChannel(e, r).limits == RejectIncoming(e, r, reason).limits == e.limits
  {
    SendLimits();
    hide Send, NewChannel, LimitReason;
  }

  lemma CleanupLimits(e: State, id: Id)
    ensures CancelOpen(e, id).limits == CleanupCancelled(e, id).limits == CleanupChannel(e, id).limits == EvictTombstone(e).limits == e.limits
  {
  }

  /** No event changes the limits. */
  lemma LimitsFixed(e: State, v: Event)
    requires e.limits.Valid()
    ensures Perform(e, v).limits == e.limits
  {
    hide *;
    Performs(e, v);
    match v
    case Open(endpoint) => OpenLimits(e, endpoint);
    case Cancel(id) => CleanupLimits(e, id);
    case Cleanup(id) => CleanupLimits(e, id);
    case AcceptHeld(r) => AnswerLimits(e, r, []);
    case RejectHeld(r, reason) => AnswerLimits(e, r, reason);
    case CleanupClosed(id) => CleanupLimits(e, id);
    case Evict => CleanupLimits(e, 0);
    case Receive(f) => HandleLimits(e, f);
    case FlushChunk(id) => SenderLimits(e, id, []);
    case WriteBytes(id, buf) => SenderLimits(e, id, buf);
    case CloseChannel(id) => SenderLimits(e, id, []);
    case LoseSender(id) => SenderLimits(e, id, []);
    case LoseReceiver(id) => ReceiverLimits(e, id, false, false, 0);
    case PullChunk(id, ff, fb) => ReceiverLimits(e, id, ff, fb, 0);
    case ReadBytes(id, room) => ReceiverLimits(e, id, false, false, room);
    case _ => SendLimits();
  }

  /** Which operation an event is. */
  lemma Performs(e: State, v: Event)
    requires e.limits.Valid()
    ensures v.Open? ==> Perform(e, v) == OpenChannel(e, v.endpoint)
    ensures v.Cancel? ==> Perform(e, v) == CancelOpen(e, v.id)
    ensures v.Cleanup? ==> Perform(e, v) == CleanupCancelled(e, v.id)
    ensures v.AcceptHeld? ==> Perform(e, v) == AcceptChannel(e, v.r)
    ensures v.RejectHeld? ==> Perform(e, v) == RejectIncoming(e, v.r, v.reason)
    ensures v.FlushChunk? ==> Perform(e, v) == Flush(e, v.id).0
    ensures v.WriteBytes? ==> Perform(e, v) == Write(e, v.id, v.buf)
    ensures v.CloseChannel? ==> Perform(e, v) == FinishClose(e, v.id)
    ensures v.LoseSender? ==> Perform(e, v) == DropSender(e, v.id)
    ensures v.LoseReceiver? ==> Perform(e, v) == DropReceiver(e, v.id)
    ensures v.PullChunk? ==> Perform(e, v) == NextChunk(e, v.id, v.fastFrames, v.fastBytes)
    ensures v.ReadBytes? ==> Perform(e, v) == Read(e, v.id, v.room).0
    ensures v.CleanupClosed? ==> Perform(e, v) == CleanupChannel(e, v.id)
    ensures v.Evict? ==> Perform(e, v) == EvictTombstone(e)
    ensures v.SendPing? ==> Perform(e, v) == if e.helloReceived then SendPriority(e, Ping) else e
    ensures v.PopFrame? ==> Perform(e, v).limits == e.limits
    ensures v.Terminate? ==> Perform(e, v).limits == e.limits
    ensures v.Receive? ==> Perform(e, v) == Handle(e, v.f).0
  {
    hide OpenChannel, CancelOpen, CleanupCancelled, AcceptChannel, RejectIncoming, Flush, Write, FinishClose, DropSender,
         DropReceiver, NextChunk, Read, CleanupChannel, EvictTombstone, SendPriority, Handle;
  }

  lemma FreshInv(l: Limits)
    requires l.Valid()
    ensures LocalInv(Fresh(l))
  {
  }

  lemma {:induction false} RunKeeps(e: State, vs: seq<Event>)
    requires LocalInv(e) && forall i :: 0 <= i < |vs| && vs[i].Receive? ==> Decoded(vs[i].f)
    ensures LocalInv(RunEvents(e, vs))
    decreases |vs|
  {
    if vs != [] {
      EventKeeps(e, vs[0]);
      hide Perform, LocalInv;
      RunKeeps(Perform(e, vs[0]), vs[1..]);
    }
  }

  lemma {:induction false} RunLimits(e: State, vs: seq<Event>)
    requires e.limits.Valid()
    ensures RunEvents(e, vs).limits == e.limits
    decreases |vs|
  {
    hide Perform;
    if vs != [] {
      LimitsFixed(e, vs[0]);
      RunLimits(Perform(e, vs[0]), vs[1..]);
    }
  }

  /** In every run of one endpoint against any peer whatsoever: the occupied slots never exceed the
      limit; each channel's remaining credit, buffered and consumed data fit its window, and the
      window its configured limit; the queue's byte count is exact and both its limits hold. */
  lemma EndpointRuns(l: Limits, vs: seq<Event>, id: Id)
    requires l.Valid() && forall i :: 0 <= i < |vs| && vs[i].Receive? ==> Decoded(vs[i].f)
    ensures var e := RunEvents(Fresh(l), vs);
            && |e.channels| + |e.pending| + |e.held| <= l.maxChannels
            && e.queue.bytes == TotalLength(e.queue.frames) <= l.maxQueuedBytes && |e.queue.frames| <= l.maxQueuedFrames
            && (id in e.channels ==>
                  var r := e.channels[id].receiver;
                  && r.credit.frames + |r.buffer| + r.consumed.frames <= r.window.frames <= l.receiveFrameLimit
                  && r.credit.bytes + |Concat(r.buffer)| + r.consumed.bytes <= r.window.bytes <= l.receiveByteLimit <= U32_MAX
                  && (r.dropped ==> r.buffer == []))
  {
    FreshInv(l);
    RunKeeps(Fresh(l), vs);
    RunLimits(Fresh(l), vs);
    var e := RunEvents(Fresh(l), vs);
    hide RunEvents;
    if id in e.channels { ChannelOf(e, id); }
    hide ChannelsInv, SenderInv;
  }

  /** So in no run can the slot assertion, the limit branch of an accepted request, or the assertion
      on the credit of a pending chunk be reached next. */
  lemma AssertionsHold(l: Limits, vs: seq<Event>, id: Id, f: Frame, r: Incoming)
    requires l.Valid() && Decoded(f) && forall i :: 0 <= i < |vs| && vs[i].Receive? ==> Decoded(vs[i].f)
    ensures var e := RunEvents(Fresh(l), vs);
            && e.limits.Valid()
            && Flush(e, id).1 != CreditAssertion
            && Handle(e, f).1 != SlotAssertion
            && (r in e.held ==> |e.channels| < e.limits.maxChannels)
  {
    FreshInv(l);
    RunKeeps(Fresh(l), vs);
    var e := RunEvents(Fresh(l), vs);
    Valid(e);
    hide RunEvents, LocalInv, Flush, Handle;
    FlushKeeps(e, id);
    ReceiveKeeps(e, f);
    if r in e.held { AcceptFits(e, r); }
  }
}
