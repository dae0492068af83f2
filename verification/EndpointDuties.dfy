/** When an endpoint does what it is asked, and exactly what it refuses from any peer. */
module EndpointDuties {
  import opened Wrappers
  import opened FrameCodec
  import opened ConnectionLimits
  import opened OutgoingQueue
  import opened ReceiveWindow
  import opened Endpoint
  import opened EndpointSafety

  // ---------- Sending and reading ----------

  /** A pending chunk is sent exactly if there is frame credit and room among the data; otherwise it is
      kept and nothing changes. A flush succeeds only with nothing left to send, and fails only for a
      half that is closed. */
  lemma FlushExactly(e: State, id: Id)
    requires LocalInv(e) && SenderLive(e, id) && !e.closing
    ensures var c, l, (e', r) := e.channels[id], e.limits, Flush(e, id);
            var s := c.sender;
            var room := |e.queue.frames| + 1 <= l.maxQueuedFrames - l.reservedFrames
                        && e.queue.bytes + 9 + |Unsent(s)| <= l.maxQueuedBytes - l.reservedBytes;
            && id in e'.channels
            && (r == Broken <==> s.closed)
            && (r == Flushed <==> !s.closed && (s.pending.None? || (s.credit.frames > 0 && room)))
            && (r == Blocked <==> !s.closed && s.pending.Some? && !(s.credit.frames > 0 && room))
            && (r == Flushed ==> e'.channels[id].sender.pending.None?)
            && (r == Flushed && s.pending.Some? ==> e'.queue.frames == e.queue.frames + [Data(c.remote, s.pending.value)])
            && (r == Blocked || (r == Flushed && s.pending.None?) ==> e' == e)
  {
    ChannelOf(e, id);
    var c := e.channels[id];
    if c.sender.pending.Some? {
      var f := Data(c.remote, c.sender.pending.value);
      assert FrameLength(f) == 9 + |c.sender.pending.value| <= e.limits.maxFrameSize;
      AdmittedExactly(e.queue, f, true, e.limits);
    }
    hide LocalInv, FrameLength;
  }

  /** Pulling moves the oldest chunk out of the buffer, for the reader to take from. */
  lemma PullExactly(e: State, id: Id, fastFrames: bool, fastBytes: bool)
    requires e.limits.Valid() && ReceiverLive(e, id)
    ensures var r := e.channels[id].receiver;
            var e' := NextChunk(e, id, fastFrames, fastBytes);
            && id in e'.channels
            && var r' := e'.channels[id].receiver;
               if r.partial.None? && r.buffer != [] then
                 r'.partial == Some(r.buffer[0]) && r'.buffer == r.buffer[1..] && r'.taken == r.taken
               else e' == e
  {
    hide Send, Doubled, Growth;
    if e.channels[id].receiver.buffer != [] {
      var add := Consume(e.channels[id].receiver, fastFrames, fastBytes).1;
      if add.Some? { SendOnly(e, Adjust(e.channels[id].remote, add.value.frames, add.value.bytes)); }
    }
  }

  /** Sending touches the queue and the closing flag only. */
  lemma SendOnly(e: State, f: Frame)
    requires e.limits.Valid()
    ensures Send(e, f) == e.(queue := Send(e, f).queue, closing := Send(e, f).closing)
    ensures SendPriority(e, f) == e.(queue := SendPriority(e, f).queue, closing := SendPriority(e, f).closing)
  {
    hide TryQueue, TryQueuePriority;
  }

  /** A read counts credit as returned exactly if it queued an Adjust, and then exactly what that
      carries; if the Adjust finds no room, the window has grown but its credit has not. */
  lemma AdjustCounts(e: State, id: Id, fastFrames: bool, fastBytes: bool)
    requires e.limits.Valid() && ReceiverLive(e, id) && !e.closing
    requires e.channels[id].receiver.buffer != [] && e.channels[id].receiver.partial.None?
    ensures var c, e' := e.channels[id], NextChunk(e, id, fastFrames, fastBytes);
            && id in e'.channels
            && var before, after := c.receiver, e'.channels[id].receiver;
               || (e'.queue == e.queue && after.credit == before.credit && after.consumed.frames == before.consumed.frames + 1)
               || (&& |e'.queue.frames| == |e.queue.frames| + 1 && e'.queue.frames[|e.queue.frames|].Adjust?
                   && var f := e'.queue.frames[|e.queue.frames|];
                      && f.receiver == c.remote && after.consumed == Credits(0, 0)
                      && after.credit == Credits(before.credit.frames + f.frames, before.credit.bytes + f.bytes))
  {
    hide Doubled, Growth, FrameLength;
  }

  /** A channel starts with the credit the other side granted, whichever side opened it. */
  lemma GrantedCredit(e: State, r: Incoming, f: Frame)
    requires LocalInv(e) && !e.closing && f.Accept?
    ensures var e' := AcceptChannel(e, r);
            r in e.held && !e'.closing ==>
              e.nextId in e'.channels && e'.channels[e.nextId].remote == r.remote && e'.channels[e.nextId].sender.credit == r.credit
    ensures f.receiver in e.pending ==>
              var e' := HandleAccept(e, f).0;
              && f.receiver in e'.channels && e'.channels[f.receiver].remote == f.sender
              && e'.channels[f.receiver].sender.credit == Credits(f.frames, f.bytes)
  {
    if r in e.held { AcceptFits(e, r); }
    if f.receiver in e.pending { PendingFits(e, f.receiver); }
    hide LocalInv, Send;
    SendOnly(e.(held := e.held - multiset{r}, nextId := e.nextId + 1), Accept(r.remote, e.nextId, INITIAL_FRAME_CREDIT, INITIAL_BYTE_CREDIT));
  }

  lemma PendingFits(e: State, id: Id)
    requires LocalInv(e) && id in e.pending
    ensures |e.channels| < e.limits.maxChannels
  {
    assert |e.pending| > 0;
    hide ChannelsInv, Consistent;
  }

  // ---------- What is refused ----------

  /** The frame is one an endpoint refuses, for the given reason. */
  ghost predicate Offends(e: State, f: Frame, v: Violation) {
    var short := ControlPayload(f) <= e.limits.maxControlPayload;
    match v
    case HelloExpected => !e.helloReceived && !f.Hello?
    case PayloadTooLarge => (e.helloReceived || f.Hello?) && !short && !f.Request?
    case InvalidMagic => f.Hello? && short && f.magic != PROTOCOL_MAGIC
    case DuplicateHello => f.Hello? && short && f.magic == PROTOCOL_MAGIC && e.helloReceived
    case RequestNotFound =>
      e.helloReceived && short && (f.Accept? || f.Reject?) && f.receiver !in e.pending && f.receiver !in e.cancelled
    case NoFrameCredit => e.helloReceived && f.Data? && f.receiver in e.channels && e.channels[f.receiver].receiver.credit.frames == 0
    case NotEnoughByteCredit =>
      && e.helloReceived && f.Data? && f.receiver in e.channels && e.channels[f.receiver].receiver.credit.frames > 0
      && e.channels[f.receiver].receiver.credit.bytes < |f.payload|
    case LateDataExceedsCredit =>
      && e.helloReceived && f.Data? && f.receiver !in e.channels && FindTombstone(e.tombstones, f.receiver).Some?
      && var c := FindTombstone(e.tombstones, f.receiver).value; c.frames == 0 || c.bytes < |f.payload|
    case EmptyAdjust => e.helloReceived && f.Adjust? && f.frames == 0 == f.bytes
    case FrameCreditOverflow =>
      && e.helloReceived && f.Adjust? && f.frames + f.bytes > 0 && f.receiver in e.channels
      && e.channels[f.receiver].sender.credit.frames + f.frames > U32_MAX
    case ByteCreditOverflow =>
      && e.helloReceived && f.Adjust? && f.frames + f.bytes > 0 && f.receiver in e.channels
      && e.channels[f.receiver].sender.credit.frames + f.frames <= U32_MAX
      && e.channels[f.receiver].sender.credit.bytes + f.bytes > U32_MAX
    case QueueLimit => false
  }

  lemma DataRefused(e: State, f: Frame, v: Violation)
    requires e.limits.Valid() && e.helloReceived && (f.Data? || f.Adjust?)
    ensures Handle(e, f).1 == Violates(v) <==> Offends(e, f, v)
    ensures Handle(e, f).1 == Violates(v) ==> Handle(e, f).0 == e
  {
    hide FindTombstone, SpendTombstone, Store;
  }

  lemma AnswerRefused(e: State, f: Frame, v: Violation)
    requires e.limits.Valid() && e.helloReceived && v != QueueLimit && (f.Accept? || f.Reject?)
    ensures Handle(e, f).1 == Violates(v) <==> Offends(e, f, v)
    ensures Handle(e, f).1 == Violates(v) ==> Handle(e, f).0 == e
  {
    hide Send, Without, NewChannel, CancelReason, FindTombstone;
  }

  lemma OthersRefused(e: State, f: Frame, v: Violation)
    requires e.limits.Valid() && v != QueueLimit && (e.helloReceived || f.Hello?)
    requires !f.Data? && !f.Adjust? && !f.Accept? && !f.Reject?
    ensures Handle(e, f).1 == Violates(v) <==> Offends(e, f, v)
    ensures Handle(e, f).1 == Violates(v) ==> Handle(e, f).0 == e
  {
    hide Send, SendPriority, Ascii, LimitReason, FindTombstone, OccupiedSlots;
  }

  /** Any peer's frame is refused for exactly these reasons, besides an answer that finds no room; and
      refusing one changes nothing. */
  lemma RefusedExactly(e: State, f: Frame, v: Violation)
    requires e.limits.Valid() && v != QueueLimit
    ensures Handle(e, f).1 == Violates(v) <==> Offends(e, f, v)
    ensures Handle(e, f).1 == Violates(v) ==> Handle(e, f).0 == e
  {
    hide Dispatch, Send, Ascii;
    if e.helloReceived || f.Hello? {
      hide Handle, Offends;
      if e.helloReceived && (f.Data? || f.Adjust?) { DataRefused(e, f, v); }
      else if e.helloReceived && (f.Accept? || f.Reject?) { AnswerRefused(e, f, v); }
      else { OthersRefused(e, f, v); }
    } else {
      GreetingRefused(e, f, v);
    }
  }

  lemma GreetingRefused(e: State, f: Frame, v: Violation)
    requires e.limits.Valid() && !e.helloReceived && !f.Hello?
    ensures Handle(e, f) == (e, Violates(HelloExpected)) && (Offends(e, f, v) <==> v == HelloExpected)
  {
    hide Dispatch, Send, FindTombstone;
  }

  // ---------- What is unknown, and what is held ----------

  /** A frame for a channel counts as unknown exactly if there is neither the channel nor its tombstone. */
  lemma UnknownExactly(e: State, f: Frame)
    requires e.limits.Valid() && e.helloReceived
    ensures Handle(e, f).1.Unknown? <==>
              && (f.Data? || (f.Adjust? && f.frames + f.bytes > 0) || ((f.Close? || f.Closed?) && |f.reason| <= e.limits.maxControlPayload))
              && f.receiver !in e.channels && FindTombstone(e.tombstones, f.receiver).None?
    ensures Handle(e, f).1.Unknown? ==> Handle(e, f).0 == e
  {
    hide Send, SendPriority, Ascii, LimitReason, CancelReason, SpendTombstone, Store, Without, NewChannel, OccupiedSlots, FindTombstone;
  }

  /** An open takes a new id exactly while both limits leave room for it, and is pending unless that
      ended the connection. */
  lemma OpensExactly(e: State, endpoint: Bytes)
    requires e.limits.Valid() && !e.closing
    ensures var e' := OpenChannel(e, endpoint);
            if |e.pending| < e.limits.maxPendingRequests && |e.channels| + |e.pending| + |e.held| < e.limits.maxChannels then
              e'.nextId == e.nextId + 1 && (!e'.closing ==> e'.pending == e.pending[e.nextId := false])
            else e' == e
  {
    hide Send;
    SendOnly(e.(nextId := e.nextId + 1), Request(e.nextId, INITIAL_FRAME_CREDIT, INITIAL_BYTE_CREDIT, endpoint));
  }

  /** A request is held, with the credit it offers, exactly while both limits leave room for it. */
  lemma HeldExactly(e: State, f: Frame)
    requires e.limits.Valid() && e.helloReceived && f.Request? && |f.endpoint| <= e.limits.maxControlPayload
    ensures Handle(e, f).1.Requested? <==>
              |e.held| < e.limits.maxPendingRequests && |e.channels| + |e.pending| + |e.held| < e.limits.maxChannels
    ensures Handle(e, f).1.Requested? ==>
              Handle(e, f).0 == e.(held := e.held + multiset{Incoming(f.sender, Credits(f.frames, f.bytes))})
  {
    hide Send, LimitReason;
  }
}
