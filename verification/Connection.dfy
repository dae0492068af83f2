/** A connection as the object it is: fields updated in place, loops over its tables. Each method does
    to its state what the endpoint model says, so what is proved of the model holds of it. */
module Connection {
  import opened Wrappers
  import opened FrameCodec
  import opened ConnectionLimits
  import opened OutgoingQueue
  import opened ReceiveWindow
  import opened Endpoint
  import opened EndpointSafety

  /** The outgoing half of the state shared with the channel halves. */
  class ConnectionQueues {
    var frames: seq<Frame>
    var frameBytes: nat

    ghost function Value(): Queue
      reads this
    {
      Queue(frames, frameBytes)
    }

    constructor ()
      ensures Value() == Initial().queue
    {
      frames, frameBytes := [HelloFrame()], FrameLength(HelloFrame());
    }

    method TryQueueFrame(f: Frame, isData: bool, l: Limits) returns (ghost result: QueueResult, ok: bool, tooLarge: bool)
      requires l.Valid()
      modifies this
      ensures result == TryQueue(old(Value()), f, isData, l)
      ensures ok == result.Queued? && tooLarge == result.TooLarge?
      ensures Value() == if ok then result.queue else old(Value())
    {
      result := TryQueue(Value(), f, isData, l);
      var newBytes := frameBytes + FrameLength(f);
      if FrameLength(f) > l.maxFrameSize { return result, false, true; }
      var frameLimit, byteLimit := l.maxQueuedFrames, l.maxQueuedBytes;
      if isData {
        frameLimit, byteLimit := frameLimit - l.reservedFrames, byteLimit - l.reservedBytes;
      }
      if |frames| >= frameLimit || newBytes > byteLimit { return result, false, false; }
      frameBytes := newBytes;
      frames := frames + [f];
      ok, tooLarge := true, false;
    }

    method TryQueuePriorityFrame(f: Frame, l: Limits) returns (ok: bool)
      modifies this
      ensures ok == TryQueuePriority(old(Value()), f, l).Queued?
      ensures Value() == if ok then TryQueuePriority(old(Value()), f, l).queue else old(Value())
    {
      var newBytes := frameBytes + FrameLength(f);
      if FrameLength(f) > l.maxFrameSize || |frames| >= l.maxQueuedFrames || newBytes > l.maxQueuedBytes { return false; }
      frameBytes := newBytes;
      if frames != [] && frames[0].Hello? {
        frames := [frames[0], f] + frames[1..];
      } else {
        frames := [f] + frames;
      }
      ok := true;
    }

    /** `pop_frame`; with an exact byte count the subtraction cannot underflow. */
    method PopFrame() returns (f: Option<Frame>)
      requires frameBytes == TotalLength(frames)
      modifies this
      ensures frameBytes == TotalLength(frames)
      ensures old(frames) == [] ==> f.None? && frames == []
      ensures old(frames) != [] ==> f == Some(old(frames)[0]) && frames == old(frames)[1..]
    {
      if frames == [] { return None; }
      f := Some(frames[0]);
      frameBytes := frameBytes - FrameLength(frames[0]);
      frames := frames[1..];
    }

    method Clear()
      modifies this
      ensures frames == [] && frameBytes == 0
    {
      frames, frameBytes := [], 0;
    }
  }

  /** Take the oldest frame out of the buffer, perhaps grow the windows, and decide whether credit is
      due: enough was consumed while credit was low, or a window grew. */
  method ConsumeFrame(r: Receiver, fastFrames: bool, fastBytes: bool) returns (r': Receiver, update: bool, add: Credits)
    requires r.buffer != []
    ensures r' == Consume(r, fastFrames, fastBytes).0 && Consume(r, fastFrames, fastBytes).1 == if update then Some(add) else None
  {
    var framesLow, bytesLow := r.credit.frames < r.window.frames / 2, r.credit.bytes < r.window.bytes / 2;
    var consumed := Credits(r.consumed.frames + 1, r.consumed.bytes + |r.buffer[0]|);
    var window := r.window;
    if framesLow && fastFrames { window := window.(frames := Doubled(window.frames, r.limit.frames)); }
    if bytesLow && fastBytes { window := window.(bytes := Doubled(window.bytes, r.limit.bytes)); }
    update := window != r.window || (framesLow && consumed.frames >= window.frames / 2) || (bytesLow && consumed.bytes >= window.bytes / 2);
    add := Credits(consumed.frames + Growth(window.frames, r.window.frames), consumed.bytes + Growth(window.bytes, r.window.bytes));
    r' := r.(buffer := r.buffer[1..], consumed := consumed, window := window, partial := Some(r.buffer[0]));
  }

  datatype WriteResult = Took(n: nat) | Waiting | Failed

  /** What the result of a flush means for the sender half. */
  lemma FlushMeans(e: State, id: Id)
    requires LocalInv(e) && SenderLive(e, id)
    ensures var (e', r) := Flush(e, id);
            && id in e'.channels && !e'.channels[id].sender.dropped
            && e'.channels[id].sender.accepted == e.channels[id].sender.accepted
            && e'.channels[id].sender.closedSent == e.channels[id].sender.closedSent
            && r != CreditAssertion
            && (r == Broken <==> e.channels[id].sender.closed || e.closing)
            && (r == Flushed ==> Writable(e', id))
            && (r == Blocked ==> !e'.channels[id].sender.closed && e'.channels[id].sender.pending.Some?)
  {
    ChannelOf(e, id);
    var c := e.channels[id];
    if c.sender.pending.Some? {
      var f := Data(c.remote, c.sender.pending.value);
      assert FrameLength(f) <= e.limits.maxFrameSize;
      AdmittedExactly(e.queue, f, true, e.limits);
    }
    hide LocalInv, FrameLength, TryQueue, ChannelsInv, Consistent;
  }

  lemma EndedIsDone(e: State, id: Id)
    requires LocalInv(e) && id in e.channels && e.channels[id].sender.closedSent
    ensures e.channels[id].sender.pending.None?
  {
    ChannelOf(e, id);
  }

  /** The chunk a reader is in the middle of, or else the oldest one; nothing at the end. */
  function NextUp(r: Receiver): Bytes {
    if r.partial.Some? then r.partial.value else if r.buffer != [] then r.buffer[0] else []
  }

  /** A read hands out the first bytes of the next chunk, as many as there are and fit, and keeps the
      rest; it is not ready only if there is nothing and more may come. */
  ghost predicate HandsOut(before: Receiver, after: Receiver, result: ReadResult, room: nat) {
    var n := Min(|NextUp(before)|, room);
    match result
    case Ready(bytes) => bytes == NextUp(before)[..n] && after.taken == before.taken + bytes && Remainder(after) == NextUp(before)[n..]
    case NotReady => before.partial.None? && before.buffer == [] && !before.closed && after == before
  }

  lemma ChunkTaken(e: State, id: Id, fastFrames: bool, fastBytes: bool, room: nat)
    requires e.limits.Valid() && ReceiverLive(e, id)
    ensures var (e', result) := Read(NextChunk(e, id, fastFrames, fastBytes), id, room);
            id in e'.channels && HandsOut(e.channels[id].receiver, e'.channels[id].receiver, result, room)
  {
    hide TryQueue, Doubled, Growth;
    var r := e.channels[id].receiver;
    var next := NextChunk(e, id, fastFrames, fastBytes);
    NextChunkKeepsHalf(e, id, fastFrames, fastBytes);
    assert next.channels[id].receiver.taken == r.taken && Remainder(next.channels[id].receiver) == NextUp(r);
    hide NextChunk;
    if next.channels[id].receiver.partial.Some? {
      TakeHandsOut(next.channels[id].receiver, room);
      var (r', bytes) := Take(next.channels[id].receiver, room);
      var n := Min(|NextUp(r)|, room);
      assert bytes == (bytes + Remainder(r'))[..n] && Remainder(r') == (bytes + Remainder(r'))[n..];
    } else {
      assert r.taken + [] == r.taken;
    }
  }

  /** The connection is in the specified state, but for its oldest tombstones. */
  ghost predicate Trims(result: (Endpoint.State, Outcome), e: Endpoint.State, outcome: Outcome, evs: seq<Event>) {
    && outcome == result.1 && result.0.limits.Valid() && e == RunEvents(result.0, evs)
    && forall i :: 0 <= i < |evs| ==> evs[i].Evict?
  }

  class Connection {
    const limits: Limits
    const queues: ConnectionQueues
    var nextId: Id
    var pending: map<Id, bool>
    var cancelled: seq<Id>
    var channels: map<Id, Channel>
    var closedChannels: seq<Tombstone>
    var held: multiset<Incoming>
    var helloReceived: bool
    var closing: bool

    ghost function State(): Endpoint.State
      reads this, queues
    {
      Endpoint.State(limits, nextId, pending, cancelled, channels, closedChannels, held, queues.Value(), helloReceived, closing)
    }

    constructor (limits: Limits)
      requires limits.Valid()
      ensures State() == Fresh(limits) && LocalInv(State()) && fresh(queues)
    {
      this.limits := limits;
      queues := new ConnectionQueues();
      nextId, pending, cancelled, channels, closedChannels, held := 1, map[], [], map[], [], multiset{};
      helloReceived, closing := false, false;
      new;
      FreshInv(limits);
    }

    // ---------- Sending ----------

    method SendFrame(f: Frame) returns (ok: bool)
      requires limits.Valid()
      modifies this`closing, queues
      ensures State() == Send(old(State()), f) && ok == !closing
    {
      if closing { return false; }
      ghost var result;
      var tooLarge;
      result, ok, tooLarge := queues.TryQueueFrame(f, false, limits);
      if !ok { closing := true; }
    }

    method SendPriorityFrame(f: Frame) returns (ok: bool)
      requires limits.Valid()
      modifies this`closing, queues
      ensures State() == SendPriority(old(State()), f) && ok == !closing
    {
      if closing { return false; }
      ok := queues.TryQueuePriorityFrame(f, limits);
      if !ok { closing := true; }
    }

    // ---------- Commands ----------

    method HandleOpen(endpoint: Bytes)
      requires limits.Valid()
      modifies this, queues
      ensures State() == OpenChannel(old(State()), endpoint)
      ensures LocalInv(old(State())) ==> LocalInv(State())
    {
      hide LocalInv;
      OpenKept(State(), endpoint);
      hide Send, FrameLength;
      if |pending| >= limits.maxPendingRequests || |channels| + |pending| + |held| >= limits.maxChannels { return; }
      var id := nextId;
      nextId := nextId + 1;
      var ok := SendFrame(Request(id, INITIAL_FRAME_CREDIT, INITIAL_BYTE_CREDIT, endpoint));
      if ok { pending := pending[id := false]; }
    }

    method HandleAcceptCommand(r: Incoming)
      requires limits.Valid()
      modifies this, queues
      ensures State() == AcceptChannel(old(State()), r)
      ensures LocalInv(old(State())) ==> LocalInv(State())
    {
      hide LocalInv, AcceptChannel;
      AcceptKept(State(), r);
      AcceptRequest(r);
    }

    /** The slot of the held request is released and reused by the channel. */
    method AcceptRequest(r: Incoming)
      requires limits.Valid()
      modifies this, queues
      ensures State() == AcceptChannel(old(State()), r)
    {
      hide Send, NewChannel, LimitReason, FrameLength;
      if r !in held { return; }
      held := held - multiset{r};
      var ok;
      if |channels| >= limits.maxChannels {
        ok := SendFrame(Reject(r.remote, LimitReason()));
        return;
      }
      var id := nextId;
      nextId := nextId + 1;
      ok := SendFrame(Accept(r.remote, id, INITIAL_FRAME_CREDIT, INITIAL_BYTE_CREDIT));
      if ok { channels := channels[id := NewChannel(r.remote, r.credit, limits)]; }
    }

    method RejectRequest(r: Incoming, reason: Bytes)
      requires limits.Valid()
      modifies this, queues
      ensures State() == RejectIncoming(old(State()), r, reason)
      ensures LocalInv(old(State())) ==> LocalInv(State())
    {
      hide LocalInv;
      if LocalInv(State()) { RejectKeeps(State(), r, reason); }
      if r !in held { return; }
      held := held - multiset{r};
      var ok := SendFrame(Reject(r.remote, reason));
    }

    // ---------- Channel halves ----------

    /** `poll_send_chunk`. */
    method PollSendChunk(id: Id) returns (result: FlushResult)
      requires limits.Valid()
      modifies this, queues
      ensures (State(), result) == Flush(old(State()), id)
      ensures LocalInv(old(State())) ==> LocalInv(State()) && result != CreditAssertion
    {
      hide LocalInv;
      if LocalInv(State()) { FlushKeeps(State(), id); }
      hide TryQueue, FrameLength;
      if id !in channels || channels[id].sender.dropped { return Broken; }
      var c := channels[id];
      var s := c.sender;
      if s.closed || closing {
        channels := channels[id := c.(sender := s.(closed := true))];
        return Broken;
      }
      if s.pending.None? { return Flushed; }
      if |s.pending.value| > s.credit.bytes { return CreditAssertion; }
      if s.credit.frames == 0 { return Blocked; }
      var chunk := s.pending.value;
      ghost var queued;
      var ok, tooLarge;
      queued, ok, tooLarge := queues.TryQueueFrame(Data(c.remote, chunk), true, limits);
      if ok {
        s := s.(pending := None, credit := Credits(s.credit.frames - 1, s.credit.bytes - |chunk|));
        channels := channels[id := c.(sender := s)];
        result := Flushed;
      } else if tooLarge {
        closing := true;
        channels := channels[id := c.(sender := s.(closed := true, pending := None))];
        result := Broken;
      } else {
        result := Blocked;
      }
    }

    /** `poll_write`: first the previous chunk, then at most one new one. */
    method PollWrite(id: Id, buf: Bytes) returns (result: WriteResult)
      requires limits.Valid() && LocalInv(State()) && id in channels && !channels[id].sender.dropped
      modifies this, queues
      ensures LocalInv(State()) && id in channels
      ensures result.Failed? <==> old(channels)[id].sender.closed || old(closing)
      ensures result.Took? ==> result.n <= |buf| && channels[id].sender.accepted == old(channels)[id].sender.accepted + buf[..result.n]
                               && (buf != [] ==> result.n > 0 && channels[id].sender.pending == Some(buf[..result.n]))
      ensures !result.Took? ==> channels[id].sender.accepted == old(channels)[id].sender.accepted
      ensures result.Waiting? && buf != [] ==> channels[id].sender.pending.Some? || channels[id].sender.credit.bytes == 0
      ensures result.Waiting? ==> buf != [] || channels[id].sender.pending.Some?
    {
      hide LocalInv, Flush;
      ghost var before := State();
      FlushMeans(before, id);
      var flushed := PollSendChunk(id);
      if flushed == Broken { return Failed; }
      if flushed != Flushed { return Waiting; }
      if buf == [] { assert channels[id].sender.accepted + [] == channels[id].sender.accepted; return Took(0); }
      if channels[id].sender.credit.bytes == 0 { return Waiting; }
      var n := AcceptChunk(id, buf);
      result := Took(n);
    }

    /** `poll_close`: once the previous chunk is out the end of the stream is announced; `ok` says that
        it was, or is by now. */
    method PollClose(id: Id) returns (done: bool, ok: bool)
      requires limits.Valid() && LocalInv(State()) && id in channels && !channels[id].sender.dropped
      modifies this, queues
      ensures LocalInv(State()) && id in channels
      ensures channels[id].sender.accepted == old(channels)[id].sender.accepted
      ensures done && ok ==> channels[id].sender.closedSent && channels[id].sender.pending.None?
      ensures !done ==> channels[id].sender.pending.Some? && !channels[id].sender.closed
    {
      hide LocalInv, Flush, Send;
      if channels[id].sender.closedSent {
        EndedIsDone(State(), id);
        return true, true;
      }
      FlushMeans(State(), id);
      var flushed := PollSendChunk(id);
      if flushed == Broken { return true, false; }
      if flushed != Flushed { return false, false; }
      CloseSender(id);
      done, ok := true, !closing;
    }

    /** The rest of `poll_write` once the previous chunk is out. */
    method AcceptChunk(id: Id, buf: Bytes) returns (n: nat)
      requires limits.Valid() && Writable(State(), id)
      modifies this`channels
      ensures State() == Write(old(State()), id, buf) && n == WriteCount(old(State()), id, buf)
      ensures id in channels && n <= |buf| && channels[id].sender.accepted == old(channels)[id].sender.accepted + buf[..n]
      ensures buf != [] && old(channels)[id].sender.credit.bytes > 0 ==> n > 0 && channels[id].sender.pending == Some(buf[..n])
      ensures LocalInv(old(State())) ==> LocalInv(State())
    {
      hide LocalInv;
      if LocalInv(State()) { WriteKeeps(State(), id, buf); }
      var c := channels[id];
      var s := c.sender;
      if buf == [] || s.credit.bytes == 0 {
        assert channels[id := c.(sender := s)] == channels;
        return 0;
      }
      n := Min(Min(s.credit.bytes, |buf|), limits.MaxPayload());
      channels := channels[id := c.(sender := s.(pending := Some(buf[..n]), accepted := s.accepted + buf[..n]))];
    }

    /** The rest of `poll_close` once the previous chunk is out. */
    method CloseSender(id: Id)
      requires limits.Valid() && Writable(State(), id)
      modifies this, queues
      ensures State() == FinishClose(old(State()), id)
      ensures LocalInv(old(State())) ==> LocalInv(State())
    {
      hide LocalInv;
      if LocalInv(State()) { EndSenderKeeps(State(), id); }
      hide Send;
      var c := channels[id];
      var ok := SendFrame(Closed(c.remote, []));
      channels := channels[id := c.(sender := c.sender.(closedSent := true, closed := true))];
    }

    method DropSenderHalf(id: Id)
      requires limits.Valid() && id in channels && !channels[id].sender.dropped
      modifies this, queues
      ensures State() == DropSender(old(State()), id)
      ensures LocalInv(old(State())) ==> LocalInv(State())
    {
      hide LocalInv;
      if LocalInv(State()) { EndSenderKeeps(State(), id); }
      hide Send;
      var c := channels[id];
      if !c.sender.closedSent && !closing {
        var ok := SendFrame(Closed(c.remote, []));
      }
      channels := channels[id := c.(sender := c.sender.(closed := true, dropped := true))];
    }

    method DropReceiverHalf(id: Id)
      requires limits.Valid() && id in channels && !channels[id].receiver.dropped
      modifies this, queues
      ensures State() == DropReceiver(old(State()), id)
      ensures LocalInv(old(State())) ==> LocalInv(State())
    {
      hide LocalInv;
      if LocalInv(State()) { DropReceiverKeeps(State(), id); }
      hide Send;
      var c := channels[id];
      if !closing {
        var ok := SendFrame(Close(c.remote, []));
      }
      channels := channels[id := c.(receiver := c.receiver.(closed := true, dropped := true, buffer := []))];
    }

    /** `poll_next_chunk`. */
    method PollNextChunk(id: Id, fastFrames: bool, fastBytes: bool) returns (chunk: Option<Bytes>)
      requires limits.Valid() && id in channels && !channels[id].receiver.dropped && channels[id].receiver.partial.None?
      modifies this, queues
      ensures State() == NextChunk(old(State()), id, fastFrames, fastBytes)
      ensures chunk == if old(channels)[id].receiver.buffer == [] then None else Some(old(channels)[id].receiver.buffer[0])
      ensures LocalInv(old(State())) ==> LocalInv(State())
    {
      hide LocalInv, NextChunk;
      if LocalInv(State()) { NextChunkKeeps(State(), id, fastFrames, fastBytes); }
      chunk := TakeChunk(id, fastFrames, fastBytes);
    }

    /** Credit is returned lazily, and only if the Adjust could be queued. */
    method TakeChunk(id: Id, fastFrames: bool, fastBytes: bool) returns (chunk: Option<Bytes>)
      requires limits.Valid() && id in channels && !channels[id].receiver.dropped && channels[id].receiver.partial.None?
      modifies this, queues
      ensures State() == NextChunk(old(State()), id, fastFrames, fastBytes)
      ensures chunk == if old(channels)[id].receiver.buffer == [] then None else Some(old(channels)[id].receiver.buffer[0])
    {
      hide Send, Consume;
      var c := channels[id];
      var r := c.receiver;
      if r.buffer == [] { return None; }
      chunk := Some(r.buffer[0]);
      var update, add;
      r, update, add := ConsumeFrame(r, fastFrames, fastBytes);
      if update {
        var ok := SendFrame(Adjust(c.remote, add.frames, add.bytes));
        if ok {
          r := r.(credit := Credits(r.credit.frames + add.frames, r.credit.bytes + add.bytes), consumed := Credits(0, 0));
        }
      }
      channels := channels[id := c.(receiver := r)];
    }

    // ---------- Incoming frames ----------

    /** Spend a tombstone's credit for late data; nothing if there is no tombstone. */
    method DiscardLateData(id: Id, bytes: nat) returns (found: bool, ok: bool)
      modifies this`closedChannels
      ensures found == FindTombstone(old(closedChannels), id).Some?
      ensures found ==> var c := FindTombstone(old(closedChannels), id).value; ok == (0 < c.frames && bytes <= c.bytes)
      ensures closedChannels == if found && ok then SpendTombstone(old(closedChannels), id, bytes) else old(closedChannels)
      ensures |closedChannels| == old(|closedChannels|)
    {
      hide FindTombstone, SpendTombstone;
      var i := 0;
      assert closedChannels[0..] == closedChannels;
      while i < |closedChannels|
        invariant 0 <= i <= |closedChannels| && closedChannels == old(closedChannels)
        invariant FindTombstone(closedChannels, id) == FindTombstone(closedChannels[i..], id)
        invariant forall j :: 0 <= j < i ==> closedChannels[j].id != id
      {
        FindStep(closedChannels, i, id);
        var t := closedChannels[i];
        if t.id == id {
          if t.credit.frames == 0 || t.credit.bytes < bytes { return true, false; }
          SpendAt(closedChannels, i, id, bytes);
          closedChannels := closedChannels[i := Tombstone(id, Credits(t.credit.frames - 1, t.credit.bytes - bytes))];
          return true, true;
        }
        i := i + 1;
      }
      FindNone(id);
      assert closedChannels[i..] == [];
      found, ok := false, false;
    }

    /** `take_cancelled_open`. */
    method TakeCancelledOpen(id: Id) returns (found: bool)
      modifies this`cancelled
      ensures found == (id in old(cancelled)) && cancelled == Without(old(cancelled), id)
    {
      hide Without;
      var i := 0;
      while i < |cancelled|
        invariant 0 <= i <= |cancelled| && id !in cancelled[..i] && cancelled == old(cancelled)
      {
        if cancelled[i] == id {
          WithoutAt(cancelled, i, id);
          cancelled := cancelled[..i] + cancelled[i + 1..];
          return true;
        }
        i := i + 1;
      }
      WithoutAbsent(cancelled, id);
      found := false;
    }

    method ReceiveData(id: Id, payload: Bytes) returns (outcome: Outcome)
      requires limits.Valid()
      modifies this`channels, this`closedChannels
      ensures (State(), outcome) == HandleData(old(State()), id, payload)
      ensures |closedChannels| == old(|closedChannels|)
      ensures LocalInv(old(State())) ==> LocalInv(State())
    {
      hide LocalInv;
      if LocalInv(State()) { DataFrameKeeps(State(), id, payload); }
      hide FindTombstone, SpendTombstone;
      if id in channels {
        var c := channels[id];
        var r := c.receiver;
        if r.credit.frames == 0 { return Violates(NoFrameCredit); }
        if r.credit.bytes < |payload| { return Violates(NotEnoughByteCredit); }
        r := r.(credit := Credits(r.credit.frames - 1, r.credit.bytes - |payload|));
        if !r.closed { r := r.(buffer := r.buffer + [payload]); }
        channels := channels[id := c.(receiver := r)];
        return Handled;
      }
      var found, ok := DiscardLateData(id, |payload|);
      outcome := if !found then Unknown else if ok then Handled else Violates(LateDataExceedsCredit);
    }

    method ReceiveAdjust(id: Id, add: Credits) returns (outcome: Outcome)
      modifies this`channels
      ensures (State(), outcome) == HandleAdjust(old(State()), id, add)
      ensures LocalInv(old(State())) ==> LocalInv(State())
    {
      hide LocalInv;
      if LocalInv(State()) { AdjustFrameKeeps(State(), id, add); }
      if add.frames == 0 && add.bytes == 0 { return Violates(EmptyAdjust); }
      if id in channels {
        var c := channels[id];
        var frames := c.sender.credit.frames + add.frames;
        if frames > U32_MAX { return Violates(FrameCreditOverflow); }
        var bytes := c.sender.credit.bytes + add.bytes;
        if bytes > U32_MAX { return Violates(ByteCreditOverflow); }
        channels := channels[id := c.(sender := c.sender.(credit := Credits(frames, bytes)))];
        return Handled;
      }
      outcome := if FindTombstone(closedChannels, id).Some? then Handled else Unknown;
    }

    method ReceiveRequest(f: Frame) returns (outcome: Outcome)
      requires limits.Valid() && f.Request?
      modifies this, queues
      ensures (State(), outcome) == HandleRequest(old(State()), f)
      ensures |closedChannels| == old(|closedChannels|)
      ensures LocalInv(old(State())) && Decoded(f) ==> LocalInv(State())
    {
      hide LocalInv;
      if LocalInv(State()) && Decoded(f) { RequestFrameKeeps(State(), f); }
      hide Send, LimitReason;
      if |held| >= limits.maxPendingRequests || |channels| + |pending| + |held| >= limits.maxChannels {
        var ok := SendFrame(Reject(f.sender, LimitReason()));
        return if ok then Handled else Violates(QueueLimit);
      }
      held := held + multiset{Incoming(f.sender, Credits(f.frames, f.bytes))};
      outcome := Requested;
    }

    /** Opens the awaited channel; a channel nobody waits for any more is closed at once and buried,
        for which the oldest tombstones make room. */
    method ReceiveAccept(f: Frame) returns (outcome: Outcome, ghost evs: seq<Event>)
      requires limits.Valid() && f.Accept?
      modifies this, queues
      ensures Trims(HandleAccept(old(State()), f), State(), outcome, evs)
      ensures old(|closedChannels|) <= limits.maxTombstones ==> |closedChannels| <= limits.maxTombstones
    {
      hide Send, NewChannel, CancelReason, RunEvents;
      evs := [];
      outcome := AnswerAccept(f);
      NoEvents(State());
      if |closedChannels| > limits.maxTombstones { evs := EvictOldest(); }
    }

    method AnswerAccept(f: Frame) returns (outcome: Outcome)
      requires limits.Valid() && f.Accept?
      modifies this, queues
      ensures (State(), outcome) == HandleAccept(old(State()), f)
    {
      hide Send, NewChannel, CancelReason;
      var id := f.receiver;
      if id in pending {
        pending := pending - {id};
        if |channels| >= limits.maxChannels { return SlotAssertion; }
        channels := channels[id := NewChannel(f.sender, Credits(f.frames, f.bytes), limits)];
        return Handled;
      }
      ghost var before := cancelled;
      var found := TakeCancelledOpen(id);
      if !found {
        WithoutAbsent(before, id);
        return Violates(RequestNotFound);
      }
      outcome := CloseLateAccept(f.sender, id);
    }

    /** A channel accepted after its caller gave up is closed at once, and remembered. */
    method CloseLateAccept(remote: Id, id: Id) returns (outcome: Outcome)
      requires limits.Valid()
      modifies this`closing, this`closedChannels, queues
      ensures var e := Send(Send(old(State()), Close(remote, CancelReason())), Closed(remote, CancelReason()));
              if e.closing then State() == e && outcome == Violates(QueueLimit)
              else State() == e.(tombstones := old(closedChannels) + [Tombstone(id, INITIAL_CREDITS)]) && outcome == Handled
    {
      hide Send, CancelReason;
      StillClosing(limits);
      var ok := SendFrame(Close(remote, CancelReason()));
      if ok { ok := SendFrame(Closed(remote, CancelReason())); }
      if !ok { return Violates(QueueLimit); }
      closedChannels := closedChannels + [Tombstone(id, INITIAL_CREDITS)];
      outcome := Handled;
    }

    method ReceiveAnswer(id: Id) returns (outcome: Outcome)
      modifies this`pending, this`cancelled
      ensures (State(), outcome) == HandleReject(old(State()), id)
      ensures LocalInv(old(State())) ==> LocalInv(State())
    {
      hide LocalInv;
      if LocalInv(State()) { RejectFrameKeeps(State(), id); }
      if id in pending {
        pending := pending - {id};
        return Handled;
      }
      ghost var before := cancelled;
      var found := TakeCancelledOpen(id);
      if !found { WithoutAbsent(before, id); }
      outcome := if found then Handled else Violates(RequestNotFound);
    }

    /** The peer will not receive, or will not send, any more. */
    method ReceiveClose(id: Id, sending: bool) returns (outcome: Outcome)
      modifies this`channels
      ensures (State(), outcome) == if sending then HandleClosed(old(State()), id) else HandleClose(old(State()), id)
      ensures id in old(channels) ==> id in channels && outcome == Handled
                                      && if sending then channels[id].receiver.closed else channels[id].sender.closed
      ensures LocalInv(old(State())) ==> LocalInv(State())
    {
      hide LocalInv;
      if LocalInv(State()) { CloseFramesKeep(State(), id); }
      if id in channels {
        var c := channels[id];
        channels := channels[id := if sending then c.(receiver := c.receiver.(closed := true)) else c.(sender := c.sender.(closed := true))];
        return Handled;
      }
      outcome := if FindTombstone(closedChannels, id).Some? then Handled else Unknown;
    }

    method DispatchFrame(f: Frame) returns (outcome: Outcome, ghost evs: seq<Event>)
      requires limits.Valid()
      modifies this, queues
      ensures Trims(Dispatch(old(State()), f), State(), outcome, evs)
      ensures old(|closedChannels|) <= limits.maxTombstones ==> |closedChannels| <= limits.maxTombstones
    {
      if f.Accept? {
        hide HandleAccept, RunEvents;
        outcome, evs := ReceiveAccept(f);
      } else {
        outcome := DispatchOther(f);
        evs := [];
      }
    }

    method DispatchOther(f: Frame) returns (outcome: Outcome)
      requires limits.Valid() && !f.Accept?
      modifies this, queues
      ensures (State(), outcome) == Dispatch(old(State()), f)
      ensures |closedChannels| == old(|closedChannels|)
    {
      hide HandleRequest, HandleReject, HandleData, HandleAdjust, HandleClose, HandleClosed, SendPriority;
      match f
      case Hello(magic, _) =>
        if magic != PROTOCOL_MAGIC { return Violates(InvalidMagic); }
        if helloReceived { return Violates(DuplicateHello); }
        helloReceived := true;
        outcome := Handled;
      case ConnectionClose(_) =>
        closing := true;
        outcome := PeerClosed;
      case Request(_, _, _, _) => outcome := ReceiveRequest(f);
      case Reject(id, _) => outcome := ReceiveAnswer(id);
      case Data(id, payload) => outcome := ReceiveData(id, payload);
      case Adjust(id, frames, bytes) => outcome := ReceiveAdjust(id, Credits(frames, bytes));
      case Close(id, _) => outcome := ReceiveClose(id, false);
      case Closed(id, _) => outcome := ReceiveClose(id, true);
      case Ping =>
        var ok := SendPriorityFrame(Pong);
        outcome := if ok then Handled else Violates(QueueLimit);
      case Pong => outcome := Handled;
    }

    /** `handle_frame`. */
    method HandleFrame(f: Frame) returns (outcome: Outcome, ghost evs: seq<Event>)
      requires limits.Valid()
      modifies this, queues
      ensures Trims(Handle(old(State()), f), State(), outcome, evs)
      ensures old(|closedChannels|) <= limits.maxTombstones ==> |closedChannels| <= limits.maxTombstones
      ensures LocalInv(old(State())) && Decoded(f) ==> LocalInv(State()) && outcome != SlotAssertion
    {
      hide LocalInv, Dispatch, Send, Ascii, RunEvents;
      if LocalInv(State()) && Decoded(f) { ReceiveKeeps(State(), f); }
      ghost var e := Handle(State(), f).0;
      outcome, evs := ProcessFrame(f);
      if LocalInv(e) { RunKeeps(e, evs); }
    }

    method ProcessFrame(f: Frame) returns (outcome: Outcome, ghost evs: seq<Event>)
      requires limits.Valid()
      modifies this, queues
      ensures Trims(Handle(old(State()), f), State(), outcome, evs)
      ensures old(|closedChannels|) <= limits.maxTombstones ==> |closedChannels| <= limits.maxTombstones
    {
      hide Dispatch, Send, Ascii, RunEvents;
      NoEvents(State());
      evs := [];
      if !helloReceived && !f.Hello? { return Violates(HelloExpected), []; }
      if ControlPayload(f) > limits.maxControlPayload {
        if !f.Request? { return Violates(PayloadTooLarge), []; }
        var ok := SendFrame(Reject(f.sender, Ascii("channel endpoint too large")));
        NoEvents(State());
        return if ok then Handled else Violates(QueueLimit), [];
      }
      outcome, evs := DispatchFrame(f);
    }

    /** `poll_read`. */
    method PollRead(id: Id, room: nat, fastFrames: bool, fastBytes: bool) returns (result: ReadResult)
      requires limits.Valid() && id in channels && !channels[id].receiver.dropped
      modifies this, queues
      ensures (State(), result) == Read(NextChunk(old(State()), id, fastFrames, fastBytes), id, room)
      ensures id in channels && HandsOut(old(channels)[id].receiver, channels[id].receiver, result, room)
      ensures LocalInv(old(State())) ==> LocalInv(State())
    {
      ChunkTaken(State(), id, fastFrames, fastBytes, room);
      hide LocalInv, HandsOut, Read, NextChunk;
      if LocalInv(State()) { NextChunkKeeps(State(), id, fastFrames, fastBytes); ReadKeeps(NextChunk(State(), id, fastFrames, fastBytes), id, room); }
      result := ReadChunk(id, room, fastFrames, fastBytes);
    }

    /** Copy from what is left of the last chunk, or else from the next one. */
    method ReadChunk(id: Id, room: nat, fastFrames: bool, fastBytes: bool) returns (result: ReadResult)
      requires limits.Valid() && id in channels && !channels[id].receiver.dropped
      modifies this, queues
      ensures (State(), result) == Read(NextChunk(old(State()), id, fastFrames, fastBytes), id, room)
    {
      hide Take;
      ghost var next := NextChunk(State(), id, fastFrames, fastBytes);
      NextChunkKeepsHalf(State(), id, fastFrames, fastBytes);
      if channels[id].receiver.partial.None? {
        var chunk := PollNextChunk(id, fastFrames, fastBytes);
      }
      hide NextChunk;
      assert State() == next;
      var c := channels[id];
      if c.receiver.partial.None? {
        return if c.receiver.buffer == [] && c.receiver.closed then Ready([]) else NotReady;
      }
      var (r, bytes) := Take(c.receiver, room);
      channels := channels[id := c.(receiver := r)];
      result := Ready(bytes);
    }

    // ---------- Cleanup ----------

    /** `cleanup_cancelled_opens`: every cancelled open leaves the pending ones for the list of those
        awaiting an answer, until that is full. */
    method CleanupCancelledOpens() returns (ok: bool, ghost evs: seq<Event>)
      requires limits.Valid() && !closing
      modifies this
      ensures State() == RunEvents(old(State()), evs) && forall i :: 0 <= i < |evs| ==> evs[i].Cleanup?
      ensures ok == !closing && (ok ==> forall id :: id in pending ==> !pending[id])
    {
      hide Perform, RunEvents;
      NoEvents(State());
      var todo := set id | id in pending && pending[id];
      evs := [];
      while todo != {}
        invariant !closing && (forall id :: id in pending && pending[id] ==> id in todo)
        invariant forall id :: id in todo ==> id in pending && pending[id]
        invariant State() == RunEvents(old(State()), evs) && forall i :: 0 <= i < |evs| ==> evs[i].Cleanup?
        decreases todo
      {
        var id :| id in todo;
        todo := todo - {id};
        RunMore(old(State()), evs, Event.Cleanup(id));
        Performs(State(), Event.Cleanup(id));
        evs := evs + [Event.Cleanup(id)];
        pending := pending - {id};
        if |cancelled| >= limits.maxTombstones {
          closing := true;
          return false, evs;
        }
        cancelled := cancelled + [id];
      }
      ok := true;
    }

    /** The oldest tombstones go. */
    method EvictOldest() returns (ghost evs: seq<Event>)
      requires limits.Valid()
      modifies this`closedChannels
      ensures State() == RunEvents(old(State()), evs) && forall i :: 0 <= i < |evs| ==> evs[i].Evict?
      ensures |closedChannels| <= limits.maxTombstones
      ensures closedChannels == old(closedChannels)[|old(closedChannels)| - Min(|old(closedChannels)|, limits.maxTombstones)..]
    {
      hide Perform, RunEvents, EvictTombstone;
      NoEvents(State());
      evs := [];
      while |closedChannels| > limits.maxTombstones
        invariant |closedChannels| <= |old(closedChannels)| && closedChannels == old(closedChannels)[|old(closedChannels)| - |closedChannels|..]
        invariant |closedChannels| >= Min(|old(closedChannels)|, limits.maxTombstones)
        invariant State() == RunEvents(old(State()), evs) && forall i :: 0 <= i < |evs| ==> evs[i].Evict?
      {
        RunMore(old(State()), evs, Event.Evict);
        Performs(State(), Event.Evict);
        evs := evs + [Event.Evict];
        DropOldest();
      }
    }

    method DropOldest()
      requires |closedChannels| > limits.maxTombstones
      modifies this`closedChannels
      ensures State() == EvictTombstone(old(State())) && closedChannels == old(closedChannels)[1..]
    {
      closedChannels := closedChannels[1..];
    }

    /** One closed channel becomes a tombstone. */
    method BuryChannel(id: Id) returns (ghost evs: seq<Event>)
      requires limits.Valid() && id in channels && channels[id].sender.dropped && channels[id].receiver.dropped
      modifies this`channels, this`closedChannels
      ensures State() == RunEvents(old(State()), evs) && forall i :: 0 <= i < |evs| ==> evs[i].CleanupClosed? || evs[i].Evict?
      ensures channels == old(channels) - {id} && |closedChannels| <= limits.maxTombstones
      ensures limits.maxTombstones > 0 && closedChannels != []
              && closedChannels[|closedChannels| - 1] == Tombstone(id, old(channels)[id].receiver.credit)
    {
      hide Perform, RunEvents;
      ghost var start := State();
      OneEvent(start, Event.CleanupClosed(id));
      Performs(start, Event.CleanupClosed(id));
      var credit := channels[id].receiver.credit;
      channels := channels - {id};
      closedChannels := closedChannels + [Tombstone(id, credit)];
      ghost var more := EvictOldest();
      evs := [Event.CleanupClosed(id)] + more;
      RunJoin(start, [Event.CleanupClosed(id)], more);
    }

    /** `cleanup_channels`: every channel both of whose halves are gone becomes a tombstone. */
    method CleanupChannels() returns (ghost evs: seq<Event>)
      requires limits.Valid() && |closedChannels| <= limits.maxTombstones
      modifies this`channels, this`closedChannels
      ensures State() == RunEvents(old(State()), evs) && forall i :: 0 <= i < |evs| ==> evs[i].CleanupClosed? || evs[i].Evict?
      ensures |closedChannels| <= limits.maxTombstones
      ensures channels.Keys == set id | id in old(channels) && !(old(channels)[id].sender.dropped && old(channels)[id].receiver.dropped)
    {
      hide Perform, RunEvents;
      var todo := set id | id in channels && channels[id].sender.dropped && channels[id].receiver.dropped;
      evs := [];
      assert RunEvents(State(), evs) == State() by { NoEvents(State()); }
      while todo != {}
        invariant channels.Keys == todo + set id | id in old(channels) && !(old(channels)[id].sender.dropped && old(channels)[id].receiver.dropped)
        invariant forall id :: id in channels ==> id in old(channels) && channels[id] == old(channels)[id]
        invariant forall id :: id in todo ==> channels[id].sender.dropped && channels[id].receiver.dropped
        invariant State() == RunEvents(old(State()), evs)
        invariant forall i :: 0 <= i < |evs| ==> evs[i].CleanupClosed? || evs[i].Evict?
        invariant |closedChannels| <= limits.maxTombstones
        decreases todo
      {
        var id :| id in todo;
        todo := todo - {id};
        ghost var more := BuryChannel(id);
        RunJoin(old(State()), evs, more);
        evs := evs + more;
      }
    }
  }

  lemma OpenKept(e: State, endpoint: Bytes)
    requires e.limits.Valid()
    ensures LocalInv(e) ==> LocalInv(OpenChannel(e, endpoint))
  {
    if LocalInv(e) { OpenKeeps(e, endpoint); }
  }

  lemma AcceptKept(e: State, r: Incoming)
    requires e.limits.Valid()
    ensures LocalInv(e) ==> LocalInv(AcceptChannel(e, r))
  {
    if LocalInv(e) { AcceptKeeps(e, r); }
  }

  /** Pulling a chunk keeps the receiver half; with a chunk in hand nothing is pulled. */
  lemma NextChunkKeepsHalf(e: State, id: Id, fastFrames: bool, fastBytes: bool)
    requires e.limits.Valid() && ReceiverLive(e, id)
    ensures ReceiverLive(NextChunk(e, id, fastFrames, fastBytes), id)
    ensures e.channels[id].receiver.partial.Some? ==> NextChunk(e, id, fastFrames, fastBytes) == e
  {
    hide TryQueue;
  }

  /** Nothing is sent once the connection is closing. */
  lemma StillClosing(l: Limits)
    ensures forall e: State, f: Frame :: e.limits.Valid() && e.closing ==> Send(e, f) == e
  {
    hide TryQueue;
  }

  lemma FindStep(ts: seq<Tombstone>, i: nat, id: Id)
    requires i < |ts|
    ensures FindTombstone(ts[i..], id) == if ts[i].id == id then Some(ts[i].credit) else FindTombstone(ts[i + 1..], id)
  {
    assert ts[i..][1..] == ts[i + 1..];
  }

  lemma FindNone(id: Id)
    ensures FindTombstone([], id) == None
  {
  }

  lemma {:induction false} SpendAt(ts: seq<Tombstone>, i: nat, id: Id, bytes: nat)
    requires i < |ts| && ts[i].id == id && forall j :: 0 <= j < i ==> ts[j].id != id
    requires 0 < ts[i].credit.frames && bytes <= ts[i].credit.bytes
    ensures FindTombstone(ts, id) == Some(ts[i].credit)
    ensures SpendTombstone(ts, id, bytes) == ts[i := Tombstone(id, Credits(ts[i].credit.frames - 1, ts[i].credit.bytes - bytes))]
  {
    if i > 0 {
      assert ts[0].id != id;
      SpendAt(ts[1..], i - 1, id, bytes);
    }
  }

  lemma {:induction false} WithoutAt(ids: seq<Id>, i: nat, id: Id)
    requires i < |ids| && ids[i] == id && id !in ids[..i]
    ensures Without(ids, id) == ids[..i] + ids[i + 1..]
  {
    if i > 0 {
      assert ids[0] == ids[..i][0];
      assert ids[1..][..i - 1] == ids[..i][1..];
      WithoutAt(ids[1..], i - 1, id);
      assert ids[..i] + ids[i + 1..] == [ids[0]] + (ids[1..][..i - 1] + ids[1..][i..]);
    }
  }

  lemma {:induction false} WithoutAbsent(ids: seq<Id>, id: Id)
    requires id !in ids
    ensures Without(ids, id) == ids
  {
    if ids != [] { WithoutAbsent(ids[1..], id); }
  }

  lemma NoEvents(e: State)
    requires e.limits.Valid()
    ensures RunEvents(e, []) == e
  {
  }

  lemma OneEvent(e: State, v: Event)
    requires e.limits.Valid()
    ensures RunEvents(e, [v]) == Perform(e, v) && RunEvents(e, [v]).limits.Valid()
  {
    hide Perform;
    LimitsFixed(e, v);
    assert [v][1..] == [];
  }

  lemma {:induction false} RunJoin(e: State, a: seq<Event>, b: seq<Event>)
    requires e.limits.Valid()
    ensures RunEvents(e, a).limits.Valid() && RunEvents(e, a + b) == RunEvents(RunEvents(e, a), b)
    decreases |a|
  {
    hide Perform;
    if a == [] {
      assert a + b == b;
    } else {
      LimitsFixed(e, a[0]);
      assert (a + b)[1..] == a[1..] + b;
      RunJoin(Perform(e, a[0]), a[1..], b);
    }
  }

  lemma {:induction false} RunMore(e: State, evs: seq<Event>, v: Event)
    requires e.limits.Valid()
    ensures RunEvents(e, evs).limits.Valid() && RunEvents(e, evs + [v]) == Perform(RunEvents(e, evs), v)
    decreases |evs|
  {
    hide Perform;
    if evs == [] {
      assert [] + [v] == [v] && [v][1..] == [];
      LimitsFixed(e, v);
    } else {
      LimitsFixed(e, evs[0]);
      assert (evs + [v])[1..] == evs[1..] + [v];
      RunMore(Perform(e, evs[0]), evs[1..], v);
    }
  }
}
