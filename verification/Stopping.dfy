/** A writer is told to stop exactly when its reader is gone. */
module Stopping {
  import opened Wrappers
  import opened FrameCodec
  import opened ConnectionLimits
  import opened OutgoingQueue
  import opened ReceiveWindow
  import opened Endpoint
  import opened EndpointSafety
  import opened Link
  import opened Pipes
  import opened System
  import opened SystemSteps
  import opened SystemDelivery
  import opened SystemOpening
  import opened SystemLocal
  import opened SystemRuns
  import opened Multiplex
  import Remembrance
  import Observed

  // ---------- One writer and its reader ----------

  /** There is, or will be, a reader that was not dropped. */
  predicate Alive(e: State, id: Id) {
    if id in e.channels then !e.channels[id].receiver.dropped else Awaiting(e, id) > 0
  }

  /** There is, or will be, a channel. */
  predicate Present(e: State, id: Id) { id in e.channels || Awaiting(e, id) > 0 }

  predicate Halted(e: State, id: Id) { id in e.channels && e.channels[id].sender.closed }

  /** The writer closed or dropped its half itself. */
  predicate Ended(e: State, id: Id) { id in e.channels && (e.channels[id].sender.closedSent || e.channels[id].sender.dropped) }

  /** A request to stop is under way to the id. */
  ghost predicate StopComing(pipe: seq<Frame>, id: Id) { exists f :: f in pipe && f.Close? && f.receiver == id }

  /** With the reader gone, the writer has stopped or is being told to; and it stops, unless by itself,
      and is told to, only with the reader gone. */
  ghost predicate Told(p: Side, q: Side, z: Id, w: Id) {
    && (Present(p.e, z) && !Alive(q.e, w) ==> Halted(p.e, z) || StopComing(Pipe(q), z))
    && (StopComing(Pipe(q), z) ==> !Alive(q.e, w))
    && (Halted(p.e, z) && !Ended(p.e, z) ==> !Alive(q.e, w))
  }

  ghost predicate AllTold(p: Side, q: Side) { forall z: Id :: z in p.peers ==> Told(p, q, z, p.peers[z]) }

  // ---------- What an endpoint does to its writers, readers and queue ----------

  /** Writers stay stopped, and stop only by themselves. */
  predicate WriterKept(e: State, e': State, id: Id) {
    && (Present(e', id) ==> Present(e, id) && (id in e.channels ==> id in e'.channels))
    && (Halted(e, id) && id in e'.channels ==> Halted(e', id))
    && (Halted(e', id) && !Ended(e', id) ==> Halted(e, id) && !Ended(e, id))
  }

  /** The queue keeps its frames, and `stop`, if given, is the only new request to stop. */
  ghost predicate Grown(e: State, e': State, stop: Option<Frame>) {
    && (forall f :: f in e.queue.frames ==> f in e'.queue.frames)
    && (forall f :: f in e'.queue.frames && f.Close? ==> f in e.queue.frames || stop == Some(f))
    && (stop.Some? ==> stop.value in e'.queue.frames)
  }

  lemma SendGrown(e: State, f: Frame)
    requires e.limits.Valid()
    ensures !Send(e, f).closing ==> Grown(e, Send(e, f), if f.Close? then Some(f) else None)
    ensures !SendPriority(e, f).closing && !f.Close? ==> Grown(e, SendPriority(e, f), None)
    ensures Send(e, f) == e.(queue := Send(e, f).queue, closing := Send(e, f).closing)
    ensures SendPriority(e, f) == e.(queue := SendPriority(e, f).queue, closing := SendPriority(e, f).closing)
    ensures e.closing ==> Send(e, f).closing
  {
    hide FrameLength;
  }

  /** Everything but the reader that was dropped goes on as before. */
  ghost predicate GoesOn(e: State, e': State, id: Id, stop: Option<Frame>, gone: Option<Id>) {
    && WriterKept(e, e', id) && Grown(e, e', stop)
    && (if gone == Some(id) then !Alive(e', id) else Alive(e', id) == Alive(e, id))
  }

  lemma QueueSame(e: State, e': State)
    requires e'.queue == e.queue
    ensures Grown(e, e', None)
  {
  }

  lemma AwaitsSame(e: State, e': State, id: Id)
    requires e'.pending == e.pending && e'.cancelled == e.cancelled
    ensures Awaiting(e', id) == Awaiting(e, id)
  {
  }

  lemma OpenGoesOn(e: State, endpoint: Bytes, id: Id)
    requires e.limits.Valid() && id < e.nextId && !OpenChannel(e, endpoint).closing
    ensures GoesOn(e, OpenChannel(e, endpoint), id, None, None)
  {
    hide Send, OccupiedSlots;
    QueueSame(e, e);
    SendGrown(e.(nextId := e.nextId + 1), Request(e.nextId, INITIAL_FRAME_CREDIT, INITIAL_BYTE_CREDIT, endpoint));
  }

  lemma AcceptGoesOn(e: State, r: Incoming, id: Id)
    requires e.limits.Valid() && id < e.nextId && !AcceptChannel(e, r).closing
    ensures GoesOn(e, AcceptChannel(e, r), id, None, None)
  {
    hide Send, LimitReason, NewChannel, Awaiting;
    QueueSame(e, e);
    var e1 := e.(held := e.held - multiset{r});
    SendGrown(e1, Reject(r.remote, LimitReason()));
    SendGrown(e1.(nextId := e.nextId + 1), Accept(r.remote, e.nextId, INITIAL_FRAME_CREDIT, INITIAL_BYTE_CREDIT));
    AwaitsSame(e, AcceptChannel(e, r), id);
  }

  lemma RejectGoesOn(e: State, r: Incoming, reason: Bytes, id: Id)
    requires e.limits.Valid() && !RejectIncoming(e, r, reason).closing
    ensures GoesOn(e, RejectIncoming(e, r, reason), id, None, None)
  {
    hide Send, Awaiting;
    QueueSame(e, e);
    SendGrown(e.(held := e.held - multiset{r}), Reject(r.remote, reason));
    AwaitsSame(e, RejectIncoming(e, r, reason), id);
  }

  lemma FlushGoesOn(e: State, at: Id, id: Id)
    requires e.limits.Valid() && !e.closing && !Flush(e, at).0.closing
    ensures GoesOn(e, Flush(e, at).0, id, None, None)
  {
    hide Awaiting, FrameLength;
    AwaitsSame(e, Flush(e, at).0, id);
  }

  lemma EndGoesOn(e: State, at: Id, id: Id)
    requires e.limits.Valid() && !e.closing
    ensures !FinishClose(e, at).closing ==> GoesOn(e, FinishClose(e, at), id, None, None)
    ensures !DropSender(e, at).closing ==> GoesOn(e, DropSender(e, at), id, None, None)
  {
    hide Send, Awaiting;
    QueueSame(e, e);
    if at in e.channels { SendGrown(e, Closed(e.channels[at].remote, [])); }
    AwaitsSame(e, FinishClose(e, at), id);
    AwaitsSame(e, DropSender(e, at), id);
  }

  /** The one operation that asks the writer to stop. */
  lemma LoseGoesOn(e: State, at: Id, id: Id)
    requires e.limits.Valid() && !e.closing && !DropReceiver(e, at).closing
    ensures ReceiverLive(e, at) ==> GoesOn(e, DropReceiver(e, at), id, Some(Close(e.channels[at].remote, [])), Some(at))
    ensures !ReceiverLive(e, at) ==> GoesOn(e, DropReceiver(e, at), id, None, None)
  {
    hide Send, Awaiting;
    QueueSame(e, e);
    if at in e.channels { SendGrown(e, Close(e.channels[at].remote, [])); }
    AwaitsSame(e, DropReceiver(e, at), id);
  }

  lemma PullGoesOn(e: State, at: Id, ff: bool, fb: bool, id: Id)
    requires e.limits.Valid() && !e.closing && !NextChunk(e, at, ff, fb).closing
    ensures GoesOn(e, NextChunk(e, at, ff, fb), id, None, None)
  {
    hide Send, Awaiting, Doubled, Growth;
    QueueSame(e, e);
    if at in e.channels && e.channels[at].receiver.buffer != [] {
      var add := Consume(e.channels[at].receiver, ff, fb).1;
      if add.Some? { SendGrown(e, Adjust(e.channels[at].remote, add.value.frames, add.value.bytes)); }
    }
    AwaitsSame(e, NextChunk(e, at, ff, fb), id);
  }

  lemma WriteGoesOn(e: State, at: Id, buf: Bytes, id: Id)
    requires e.limits.Valid()
    ensures GoesOn(e, Write(e, at, buf), id, None, None)
  {
    AwaitsSame(e, Write(e, at, buf), id);
    QueueSame(e, Write(e, at, buf));
    hide Awaiting, Grown;
  }

  lemma ReadGoesOn(e: State, at: Id, room: nat, id: Id)
    ensures GoesOn(e, Read(e, at, room).0, id, None, None)
  {
    AwaitsSame(e, Read(e, at, room).0, id);
    QueueSame(e, Read(e, at, room).0);
    hide Awaiting, Grown;
  }

  lemma CancelGoesOn(e: State, at: Id, id: Id)
    ensures GoesOn(e, CancelOpen(e, at), id, None, None)
    ensures !CleanupCancelled(e, at).closing ==> GoesOn(e, CleanupCancelled(e, at), id, None, None)
  {
    CancelAwaits(e, at);
    if !CleanupCancelled(e, at).closing { CleanupAwaits(e, at); }
    QueueSame(e, CancelOpen(e, at));
    QueueSame(e, CleanupCancelled(e, at));
    hide Awaiting, Grown;
  }

  lemma BuryGoesOn(e: State, at: Id, id: Id)
    requires at in e.channels ==> Awaiting(e, at) == 0
    ensures GoesOn(e, CleanupChannel(e, at), id, None, None)
  {
    AwaitsSame(e, CleanupChannel(e, at), id);
    QueueSame(e, CleanupChannel(e, at));
    hide Awaiting, Grown;
  }

  lemma EvictGoesOn(e: State, id: Id)
    ensures GoesOn(e, EvictTombstone(e), id, None, None)
  {
    AwaitsSame(e, EvictTombstone(e), id);
    QueueSame(e, EvictTombstone(e));
    hide Awaiting, Grown;
  }

  /** The reader that an event drops. */
  function Gone(e: State, v: Event): Option<Id> { if v.LoseReceiver? && ReceiverLive(e, v.id) then Some(v.id) else None }

  function StopOf(e: State, v: Event): Option<Frame> {
    if v.LoseReceiver? && ReceiverLive(e, v.id) then Some(Close(e.channels[v.id].remote, [])) else None
  }

  lemma PingGoesOn(e: State, id: Id)
    requires e.limits.Valid() && !e.closing && !SendPriority(e, Ping).closing
    ensures GoesOn(e, SendPriority(e, Ping), id, None, None) && GoesOn(e, e, id, None, None)
  {
    hide SendPriority, Awaiting;
    SendGrown(e, Ping);
    QueueSame(e, e);
    AwaitsSame(e, SendPriority(e, Ping), id);
  }

  lemma PerformGoesOn(e: State, v: Event, id: Id)
    requires e.limits.Valid() && !e.closing && !Perform(e, v).closing && id < e.nextId && !v.Receive? && !v.PopFrame? && !v.Terminate?
    requires forall x :: x in e.channels ==> Awaiting(e, x) == 0
    ensures GoesOn(e, Perform(e, v), id, StopOf(e, v), Gone(e, v))
  {
    Performs(e, v);
    SameGoesOn(e, id);
    StopsNothing(e, v);
    hide *;
    match v
    case Open(endpoint) => OpenGoesOn(e, endpoint, id);
    case AcceptHeld(r) => AcceptGoesOn(e, r, id);
    case RejectHeld(r, reason) => RejectGoesOn(e, r, reason, id);
    case FlushChunk(at) => FlushGoesOn(e, at, id);
    case CloseChannel(at) => EndGoesOn(e, at, id);
    case LoseSender(at) => EndGoesOn(e, at, id);
    case LoseReceiver(at) => LoseGoesOn(e, at, id);
    case PullChunk(at, ff, fb) => PullGoesOn(e, at, ff, fb, id);
    case WriteBytes(at, buf) => WriteGoesOn(e, at, buf, id);
    case ReadBytes(at, room) => ReadGoesOn(e, at, room, id);
    case Cancel(at) => CancelGoesOn(e, at, id);
    case Cleanup(at) => CancelGoesOn(e, at, id);
    case CleanupClosed(at) => BuryGoesOn(e, at, id);
    case Evict => EvictGoesOn(e, id);
    case SendPing => if e.helloReceived { PingGoesOn(e, id); }
  }

  lemma SameGoesOn(e: State, id: Id)
    ensures GoesOn(e, e, id, None, None)
  {
  }

  lemma StopsNothing(e: State, v: Event)
    ensures StopOf(e, v) == if v.LoseReceiver? && ReceiverLive(e, v.id) then Some(Close(e.channels[v.id].remote, [])) else None
    ensures Gone(e, v) == if v.LoseReceiver? && ReceiverLive(e, v.id) then Some(v.id) else None
  {
  }

  // ---------- What a frame does ----------

  predicate Closing(result: (State, Outcome)) { result.0.closing || result.1.Violates? || result.1.SlotAssertion? }

  predicate LateAccept(e: State, f: Frame) { f.Accept? && f.receiver !in e.pending && f.receiver in e.cancelled }

  lemma RequestGoesOn(e: State, f: Frame, id: Id)
    requires e.limits.Valid() && f.Request? && !Closing(HandleRequest(e, f))
    ensures GoesOn(e, HandleRequest(e, f).0, id, None, None)
  {
    hide Send, LimitReason, Awaiting;
    if HandleRequest(e, f).0.queue == e.queue { QueueSame(e, HandleRequest(e, f).0); }
    SendGrown(e, Reject(f.sender, LimitReason()));
    AwaitsSame(e, HandleRequest(e, f).0, id);
  }

  lemma OpenedGoesOn(e: State, f: Frame, id: Id)
    requires e.limits.Valid() && f.Accept? && !Closing(HandleAccept(e, f)) && f.receiver in e.pending && f.receiver !in e.channels
    ensures GoesOn(e, HandleAccept(e, f).0, id, None, None)
  {
    QueueSame(e, HandleAccept(e, f).0);
    hide Grown;
  }

  lemma LateGoesOn(e: State, f: Frame, id: Id)
    requires e.limits.Valid() && !e.closing && LateAccept(e, f) && !Closing(HandleAccept(e, f))
    requires Awaiting(e, f.receiver) == 1 && f.receiver !in e.channels
    ensures GoesOn(e, HandleAccept(e, f).0, id, Some(Close(f.sender, CancelReason())), Some(f.receiver))
  {
    hide Send, CancelReason, Without;
    var e1 := e.(cancelled := Without(e.cancelled, f.receiver));
    SendGrown(e1, Close(f.sender, CancelReason()));
    SendGrown(Send(e1, Close(f.sender, CancelReason())), Closed(f.sender, CancelReason()));
    OnceGone(e.cancelled, f.receiver);
    if id != f.receiver { Remembrance.WithoutOthers(e.cancelled, f.receiver, id); }
  }

  lemma {:induction false} OnceGone(ids: seq<Id>, id: Id)
    requires multiset(ids)[id] == 1
    ensures multiset(Without(ids, id))[id] == 0
  {
    assert ids == [ids[0]] + ids[1..];
    if ids[0] != id { OnceGone(ids[1..], id); }
  }

  lemma RejectedGoesOn(e: State, at: Id, id: Id)
    requires at != id
    ensures GoesOn(e, HandleReject(e, at).0, id, None, None)
  {
    hide Without;
    Remembrance.WithoutOthers(e.cancelled, at, id);
    QueueSame(e, HandleReject(e, at).0);
    hide Grown;
  }

  lemma ChannelFrameGoesOn(e: State, f: Frame, id: Id)
    requires e.limits.Valid() && (f.Data? || f.Adjust? || f.Closed? || (f.Close? && f.receiver != id))
    ensures GoesOn(e, Dispatch(e, f).0, id, None, None)
  {
    hide FindTombstone, SpendTombstone, Awaiting;
    AwaitsSame(e, Dispatch(e, f).0, id);
    QueueSame(e, Dispatch(e, f).0);
    hide Grown;
  }

  lemma OtherFrameGoesOn(e: State, f: Frame, id: Id)
    requires e.limits.Valid() && (f.Hello? || f.ConnectionClose? || f.Ping? || f.Pong?) && !Closing(Dispatch(e, f))
    ensures GoesOn(e, Dispatch(e, f).0, id, None, None)
  {
    hide SendPriority, Awaiting;
    SendGrown(e, Pong);
    if Dispatch(e, f).0.queue == e.queue { QueueSame(e, Dispatch(e, f).0); }
    AwaitsSame(e, Dispatch(e, f).0, id);
  }

  lemma RefusedGoesOn(e: State, f: Frame, id: Id)
    requires e.limits.Valid() && f.Request? && !e.closing
    ensures var e' := Send(e, Reject(f.sender, Ascii("channel endpoint too large"))); !e'.closing ==> GoesOn(e, e', id, None, None)
  {
    hide Send, Awaiting, Ascii;
    var reject := Reject(f.sender, Ascii("channel endpoint too large"));
    SendGrown(e, reject);
    AwaitsSame(e, Send(e, reject), id);
  }

  /** What a frame from the peer leaves to be done by the queue, and whose reader it takes away. */
  lemma HandleGoesOn(e: State, f: Frame, id: Id)
    requires e.limits.Valid() && !e.closing && !Closing(Handle(e, f))
    requires !(f.Reject? && f.receiver == id) && !(f.Close? && f.receiver == id)
    requires f.Accept? ==> f.receiver !in e.channels && Awaiting(e, f.receiver) == 1
    ensures if LateAccept(e, f) then GoesOn(e, Handle(e, f).0, id, Some(Close(f.sender, CancelReason())), Some(f.receiver))
            else GoesOn(e, Handle(e, f).0, id, None, None)
  {
    if f.Request? { RefusedGoesOn(e, f, id); }
    AcceptedOr(e, f);
    hide GoesOn, Send, Ascii, Dispatch, CancelReason, Awaiting;
    if ControlPayload(f) <= e.limits.maxControlPayload {
      Dispatches(e, f);
      match f
      case Request(_, _, _, _) => RequestGoesOn(e, f, id);
      case Accept(_, _, _, _) => if LateAccept(e, f) { LateGoesOn(e, f, id); } else { OpenedGoesOn(e, f, id); }
      case Reject(at, _) => RejectedGoesOn(e, at, id);
      case Data(_, _) => ChannelFrameGoesOn(e, f, id);
      case Adjust(_, _, _) => ChannelFrameGoesOn(e, f, id);
      case Close(_, _) => ChannelFrameGoesOn(e, f, id);
      case Closed(_, _) => ChannelFrameGoesOn(e, f, id);
      case _ => OtherFrameGoesOn(e, f, id);
    }
  }

  lemma AcceptedOr(e: State, f: Frame)
    requires f.Accept? ==> Awaiting(e, f.receiver) == 1
    ensures f.Accept? ==> LateAccept(e, f) || f.receiver in e.pending
    ensures f.Accept? ==> ControlPayload(f) == 0
  {
  }

  /** A request to stop reaches the writer: the half is closed, so its next flush fails. */
  lemma StopHalts(e: State, f: Frame)
    requires e.limits.Valid() && e.helloReceived && f.Close? && |f.reason| <= e.limits.maxControlPayload
    ensures var e' := Handle(e, f).0;
            && e'.queue == e.queue && e'.channels.Keys == e.channels.Keys && (forall x :: Awaiting(e', x) == Awaiting(e, x))
            && (forall x :: x in e.channels ==>
                  e'.channels[x] == if x == f.receiver then e.channels[x].(sender := e.channels[x].sender.(closed := true)) else e.channels[x])
            && (SenderLive(e, f.receiver) ==> Flush(e', f.receiver).1 == Broken && Flush(e', f.receiver).0.queue == e'.queue)
  {
    hide FindTombstone;
  }

  // ---------- Steps of a pair ----------

  lemma InPipe(p: Side, f: Frame)
    ensures f in Pipe(p) <==> f in p.wire || f in p.e.queue.frames
  {
  }

  /** The writer's side moved. */
  lemma NearTold(p: Side, p': Side, q: Side, q': Side, z: Id, w: Id)
    requires Told(p, q, z, w) && WriterKept(p.e, p'.e, z) && Alive(q'.e, w) == Alive(q.e, w)
    requires StopComing(Pipe(q'), z) <==> StopComing(Pipe(q), z)
    ensures Told(p', q', z, w)
  {
    hide Alive, StopComing;
  }

  /** The reader's side moved: its queue grew, perhaps by the request that goes with its end. */
  lemma FarTold(q: Side, q': Side, p: Side, p': Side, y: Id, w: Id, stop: Option<Frame>, gone: Option<Id>)
    requires Told(q, p, y, w) && q'.e == q.e && p'.wire == p.wire && GoesOn(p.e, p'.e, w, stop, gone)
    requires gone == Some(w) ==> stop.Some? && stop.value.Close? && stop.value.receiver == y
    requires stop.Some? && stop.value.Close? && stop.value.receiver == y ==> gone == Some(w)
    ensures Told(q', p', y, w)
  {
    hide WriterKept, Awaiting, Halted, Ended, Present;
    forall f ensures f in Pipe(p) <==> f in p.wire || f in p.e.queue.frames { InPipe(p, f); }
    forall f ensures f in Pipe(p') <==> f in p'.wire || f in p'.e.queue.frames { InPipe(p', f); }
    hide Pipe, Alive;
  }

  /** What the invariant of the pair says about an accepted id. */
  lemma PeerFacts(p: Side, q: Side, z: Id)
    requires PairInv(p, q) && z in p.peers
    ensures z < p.e.nextId && p.peers[z] in q.peers && q.peers[p.peers[z]] == z
    ensures z in p.e.channels ==> p.e.channels[z].remote == p.peers[z]
  {
    MirrorFacts(p, q, z);
    if z in p.e.channels { ChannelFacts(p, q, z); }
    Allocated(ViewOf(p, q, z));
    hide PairInv, LinkInv, Select, Pipe, FarOf, Awaiting, CountTombstones;
  }

  lemma Allocated(v: View)
    requires LinkInv(v) && v.near.peer.Some?
    ensures !v.near.unallocated
  {
    hide DirectionInv, Matched, Total;
  }

  lemma ChannelsAwaitNothing(p: Side, q: Side)
    requires PairInv(p, q)
    ensures forall x :: x in p.e.channels ==> Awaiting(p.e, x) == 0
  {
    forall x | x in p.e.channels ensures Awaiting(p.e, x) == 0 {
      LinkOf(p, q, x);
      ViewAwaits(p, q, x);
      hide LinkInv, ViewOf;
    }
    hide PairInv;
  }

  lemma {:induction false} NoStop(fs: seq<Frame>, id: Id)
    requires Select(fs, To(id)) == []
    ensures !StopComing(fs, id)
  {
    if fs != [] {
      SelectHead(fs, To(id));
      NoStop(fs[1..], id);
      assert fs == [fs[0]] + fs[1..];
    }
  }

  lemma AwaitedIsNoChannel(v: View)
    requires LinkInv(v) && v.heldByPeer > 0
    ensures v.near.awaiting > 0 && v.near.snd.None?
  {
    hide DirectionInv, Total;
  }

  /** The two ids that an accepted request joins, before it is accepted. */
  lemma NewIds(p: Side, q: Side, r: Incoming)
    requires PairInv(p, q) && r in p.e.held
    ensures p.e.nextId !in p.e.channels && r.remote !in q.e.channels && Awaiting(q.e, r.remote) > 0
    ensures !StopComing(Pipe(p), r.remote) && !StopComing(Pipe(q), p.e.nextId)
  {
    HeldFacts(p, q, r);
    FreshChannel(p, q);
    LinkOf(p, q, p.e.nextId);
    Unallocated(p, p.e.nextId);
    hide PairInv, LinkInv, Select, Pipe, Awaiting, CountTombstones, FarOf;
    AwaitedIsNoChannel(ViewOf(q, p, r.remote));
    FreshView(ViewOf(p, q, p.e.nextId));
    NoStop(Pipe(p), r.remote);
    NoStop(Pipe(q), p.e.nextId);
  }

  lemma NewHalves(e: State, r: Incoming)
    requires e.limits.Valid() && r in e.held && e.nextId !in e.channels && e.nextId in AcceptChannel(e, r).channels
    ensures var e' := AcceptChannel(e, r);
            && !e'.closing && Grown(e, e', None)
            && !e'.channels[e.nextId].sender.closed && !e'.channels[e.nextId].receiver.dropped
  {
    hide Send, LimitReason;
    var e1 := e.(held := e.held - multiset{r});
    SendGrown(e1, Reject(r.remote, LimitReason()));
    SendGrown(e1.(nextId := e.nextId + 1), Accept(r.remote, e.nextId, INITIAL_FRAME_CREDIT, INITIAL_BYTE_CREDIT));
  }

  lemma NewTold(p: Side, p': Side, q: Side, q': Side, z: Id, w: Id)
    requires w !in q.e.channels && Awaiting(q.e, w) > 0 && !StopComing(Pipe(p), w) && !StopComing(Pipe(q), z)
    requires z in p'.e.channels && !p'.e.channels[z].sender.closed && !p'.e.channels[z].receiver.dropped
    requires Grown(p.e, p'.e, None) && p'.wire == p.wire && q'.e == q.e && q'.wire == q.wire
    ensures Told(p', q', z, w) && Told(q', p', w, z)
  {
    forall f ensures f in Pipe(p) <==> f in p.wire || f in p.e.queue.frames { InPipe(p, f); }
    forall f ensures f in Pipe(p') <==> f in p'.wire || f in p'.e.queue.frames { InPipe(p', f); }
    assert Pipe(q') == Pipe(q);
    hide Pipe, Awaiting;
  }

  /** The dropped reader's request to stop is addressed to its own writer, and no other is. */
  lemma StopAddressed(p: Side, q: Side, v: Event, y: Id)
    requires PairInv(p, q) && y in q.peers
    ensures var w := q.peers[y];
            && w in p.peers && p.peers[w] == y && w < p.e.nextId
            && (Gone(p.e, v) == Some(w) ==> StopOf(p.e, v).Some? && StopOf(p.e, v).value.Close? && StopOf(p.e, v).value.receiver == y)
            && (StopOf(p.e, v).Some? && StopOf(p.e, v).value.receiver == y ==> Gone(p.e, v) == Some(w))
  {
    Swap(p, q);
    MirrorFacts(q, p, y);
    PeerFacts(p, q, q.peers[y]);
    if v.LoseReceiver? && ReceiverLive(p.e, v.id) { ChannelFacts(p, q, v.id); PeerFacts(p, q, v.id); }
    hide PairInv, LinkInv, ViewOf, Linked;
  }

  lemma GoesOnLocally(p: Side, q: Side, v: Event, id: Id)
    requires PairInv(p, q) && !p.e.closing && p.e.limits.Valid() && !v.Receive? && !v.PopFrame? && !Perform(p.e, v).closing && id < p.e.nextId
    ensures GoesOn(p.e, Perform(p.e, v), id, StopOf(p.e, v), Gone(p.e, v))
  {
    hide *;
    ChannelsAwaitNothing(p, q);
    if v.Terminate? { NotTerminated(p.e, v); }
    PerformGoesOn(p.e, v, id);
  }

  lemma NotTerminated(e: State, v: Event)
    requires e.limits.Valid() && v.Terminate?
    ensures Perform(e, v).closing
  {
  }

  lemma OldTold(p: Side, p': Side, q: Side, q': Side, v: Event)
    requires PairInv(p, q) && Up(p, q) && p.e.limits.Valid() && AllTold(p, q) && AllTold(q, p)
    requires !v.Receive? && !v.PopFrame? && !Perform(p.e, v).closing
    requires p'.e == Perform(p.e, v) && p'.wire == p.wire && q'.e == q.e && q'.wire == q.wire
    ensures forall z: Id :: z in p.peers ==> Told(p', q', z, p.peers[z])
    ensures forall y: Id :: y in q.peers ==> Told(q', p', y, q.peers[y])
  {
    hide PairInv, Perform, Told, GoesOn, StopOf, Gone, Awaiting, WriterKept, Alive, StopComing;
    SamePipeOf(q, q');
    forall z: Id | z in p.peers ensures Told(p', q', z, p.peers[z]) {
      PeerFacts(p, q, z);
      GoesOnLocally(p, q, v, z);
      KeptBy(p.e, p'.e, z, StopOf(p.e, v), Gone(p.e, v));
      NearTold(p, p', q, q', z, p.peers[z]);
    }
    forall y: Id | y in q.peers ensures Told(q', p', y, q.peers[y]) {
      StopAddressed(p, q, v, y);
      GoesOnLocally(p, q, v, q.peers[y]);
      FarTold(q, q', p, p', y, q.peers[y], StopOf(p.e, v), Gone(p.e, v));
    }
  }

  lemma LocalTold(p: Side, q: Side, v: Event)
    requires PairInv(p, q) && Up(p, q) && p.e.limits.Valid() && AllTold(p, q) && AllTold(q, p)
    requires !v.Receive? && !v.PopFrame? && !Perform(p.e, v).closing
    ensures var (p', q') := LocalStep(p, q, v); AllTold(p', q') && AllTold(q', p')
  {
    hide PairInv, Perform, LocalStep, Told, Grown, StopComing, Awaiting, AcceptChannel;
    StepShape(p, q, v);
    var (p', q') := LocalStep(p, q, v);
    OldTold(p, p', q, q', v);
    if v.AcceptHeld? && v.r in p.e.held && p.e.nextId in p'.e.channels {
      NewIds(p, q, v.r);
      Performs(p.e, v);
      NewHalves(p.e, v.r);
      NewTold(p, p', q, q', p.e.nextId, v.r.remote);
    }
  }

  lemma KeptBy(e: State, e': State, id: Id, stop: Option<Frame>, gone: Option<Id>)
    requires GoesOn(e, e', id, stop, gone)
    ensures WriterKept(e, e', id)
  {
    hide WriterKept, Grown, Alive;
  }

  lemma SamePipeOf(q: Side, q': Side)
    requires q'.e == q.e && q'.wire == q.wire
    ensures Pipe(q') == Pipe(q)
  {
  }

  /** What a local step does to the two sides besides the endpoint that takes it. */
  lemma StepShape(p: Side, q: Side, v: Event)
    requires PairInv(p, q) && p.e.limits.Valid() && !v.Receive? && !v.PopFrame?
    ensures var (p', q') := LocalStep(p, q, v);
            && p'.e == Perform(p.e, v) && p'.wire == p.wire && q'.e == q.e && q'.wire == q.wire
            && if v.AcceptHeld? && v.r in p.e.held && p.e.nextId in p'.e.channels then
                 p'.peers == p.peers[p.e.nextId := v.r.remote] && q'.peers == q.peers[v.r.remote := p.e.nextId]
               else p'.peers == p.peers && q'.peers == q.peers
  {
    FreshChannel(p, q);
    Observed.AcceptNothingIf(p.e, v);
    hide PairInv, Perform, LinkInv, LocalInv;
    ShapeOf(p, q, v);
  }

  lemma ShapeOf(p: Side, q: Side, v: Event)
    requires p.e.limits.Valid() && !v.Receive? && !v.PopFrame? && p.e.nextId !in p.e.channels
    requires v.AcceptHeld? && v.r !in p.e.held ==> Perform(p.e, v) == p.e
    ensures var (p', q') := LocalStep(p, q, v);
            && p'.e == Perform(p.e, v) && p'.wire == p.wire && q'.e == q.e && q'.wire == q.wire
            && if v.AcceptHeld? && v.r in p.e.held && p.e.nextId in p'.e.channels then
                 p'.peers == p.peers[p.e.nextId := v.r.remote] && q'.peers == q.peers[v.r.remote := p.e.nextId]
               else p'.peers == p.peers && q'.peers == q.peers
  {
    hide Perform;
  }

  // ---------- Deliveries ----------

  /** Processing a frame without ending the connection. */
  lemma Processed(p: Side, q: Side)
    requires PairInv(p, q) && Up(p, q) && p.e.limits.Valid() && q.wire != [] && !Receiving(p.e, q.wire[0]).closing
    ensures Receiving(p.e, q.wire[0]) == Handle(p.e, q.wire[0]).0 && !Closing(Handle(p.e, q.wire[0]))
    ensures q.wire[0].Close? ==> p.e.helloReceived && |q.wire[0].reason| <= p.e.limits.maxControlPayload
  {
    Greeted(p, q);
    TextJudged(p.e, q.wire[0]);
    hide PairInv, Handle, FrameLength;
  }

  /** What the head of the wire must be like. */
  lemma HeadFacts(p: Side, q: Side, f: Frame)
    requires PairInv(p, q) && q.wire != [] && q.wire[0] == f
    ensures f.Accept? ==> f.receiver !in p.e.channels && Awaiting(p.e, f.receiver) == 1 && f.receiver in p.peers && f.sender == p.peers[f.receiver]
    ensures f.Reject? ==> f.receiver !in p.peers
    ensures f.Close? ==> Awaiting(p.e, f.receiver) == 0
  {
    if f.Accept? { AcceptHead(p, q, f.receiver); }
    if f.Reject? { RejectHead(p, q, f.receiver); }
    if f.Close? { GoneFacts(p, q, f.receiver); }
    hide PairInv, ViewOf, LinkInv, Awaiting, Select, Pipe;
  }

  lemma TailStops(q: Side, id: Id)
    requires q.wire != [] && !(q.wire[0].Close? && q.wire[0].receiver == id)
    ensures StopComing(Pipe(q.(wire := q.wire[1..])), id) <==> StopComing(Pipe(q), id)
  {
    var fs := Pipe(q);
    assert fs == [fs[0]] + fs[1..] && fs[1..] == Pipe(q.(wire := q.wire[1..]));
    hide Pipe;
  }

  lemma HeadStops(q: Side, id: Id)
    requires q.wire != [] && q.wire[0].Close? && q.wire[0].receiver == id
    ensures StopComing(Pipe(q), id)
    ensures StopComing(Pipe(q.(wire := q.wire[1..])), id) ==> StopComing(Pipe(q), id)
  {
    var fs := Pipe(q);
    assert fs == [fs[0]] + fs[1..] && fs[1..] == Pipe(q.(wire := q.wire[1..]));
    assert fs[0] in fs;
  }

  lemma StoppedTold(p: Side, p': Side, q: Side, q': Side, z: Id, w: Id)
    requires Told(p, q, z, w) && StopComing(Pipe(q), z) && q'.e == q.e
    requires Present(p'.e, z) ==> Halted(p'.e, z)
    ensures Told(p', q', z, w)
  {
    hide Alive, StopComing, Pipe;
  }

  function StopIn(e: State, f: Frame): Option<Frame> { if LateAccept(e, f) then Some(Close(f.sender, CancelReason())) else None }

  function GoneIn(e: State, f: Frame): Option<Id> { if LateAccept(e, f) then Some(f.receiver) else None }

  /** A request to stop changes nothing but the writer it is for. */
  lemma StopGoesOn(e: State, f: Frame, id: Id)
    requires e.limits.Valid() && e.helloReceived && f.Close? && |f.reason| <= e.limits.maxControlPayload
    ensures Alive(Handle(e, f).0, id) == Alive(e, id) && Grown(e, Handle(e, f).0, None)
    ensures id == f.receiver && Awaiting(e, id) == 0 && Present(Handle(e, f).0, id) ==> Halted(Handle(e, f).0, id)
    ensures id != f.receiver ==> WriterKept(e, Handle(e, f).0, id)
  {
    StopHalts(e, f);
    QueueSame(e, Handle(e, f).0);
    hide Handle, Awaiting, Grown, Flush;
  }

  lemma FrameGoesOn(p: Side, q: Side, f: Frame, id: Id)
    requires PairInv(p, q) && Up(p, q) && p.e.limits.Valid() && q.wire != [] && q.wire[0] == f && !Receiving(p.e, f).closing
    requires !(f.Close? && f.receiver == id) && id in p.peers
    ensures GoesOn(p.e, Receiving(p.e, f), id, StopIn(p.e, f), GoneIn(p.e, f))
  {
    hide PairInv, Receiving, Handle, GoesOn, CancelReason, Awaiting;
    Processed(p, q);
    HeadFacts(p, q, f);
    HandleGoesOn(p.e, f, id);
  }

  lemma DeliverTold(p: Side, q: Side)
    requires PairInv(p, q) && Up(p, q) && p.e.limits.Valid() && q.wire != [] && AllTold(p, q) && AllTold(q, p)
    requires !Receiving(p.e, q.wire[0]).closing
    ensures var (p', q') := DeliverStep(p, q); AllTold(p', q') && AllTold(q', p')
  {
    hide PairInv, Receiving, Handle, Told, GoesOn, StopIn, GoneIn, Awaiting, WriterKept, Alive, StopComing, Present, Halted;
    var f := q.wire[0];
    var (p', q') := DeliverStep(p, q);
    forall z: Id | z in p'.peers ensures Told(p', q', z, p'.peers[z]) { NearDelivered(p, q, z); }
    forall y: Id | y in q'.peers ensures Told(q', p', y, q'.peers[y]) { FarDelivered(p, q, y); }
  }

  lemma NearDelivered(p: Side, q: Side, z: Id)
    requires PairInv(p, q) && Up(p, q) && p.e.limits.Valid() && q.wire != [] && AllTold(p, q) && z in p.peers
    requires !Receiving(p.e, q.wire[0]).closing
    ensures var (p', q') := DeliverStep(p, q); Told(p', q', z, p.peers[z])
  {
    hide PairInv, Receiving, Handle, Told, GoesOn, StopIn, GoneIn, Awaiting, WriterKept, Alive, StopComing, Present, Halted;
    var f := q.wire[0];
    var (p', q') := DeliverStep(p, q);
    if f.Close? && f.receiver == z {
      Processed(p, q);
      HeadFacts(p, q, f);
      HeadStops(q, z);
      StopGoesOn(p.e, f, z);
      StoppedTold(p, p', q, q', z, p.peers[z]);
    } else {
      FrameGoesOn(p, q, f, z);
      KeptBy(p.e, p'.e, z, StopIn(p.e, f), GoneIn(p.e, f));
      TailStops(q, z);
      NearTold(p, p', q, q', z, p.peers[z]);
    }
  }

  lemma FarDelivered(p: Side, q: Side, y: Id)
    requires PairInv(p, q) && Up(p, q) && p.e.limits.Valid() && q.wire != [] && AllTold(q, p) && y in q.peers
    requires !Receiving(p.e, q.wire[0]).closing
    ensures var (p', q') := DeliverStep(p, q); Told(q', p', y, q.peers[y])
  {
    hide PairInv, Receiving, Handle, Told, Awaiting, Alive, StopComing, Present, Halted, WriterKept, Grown, CancelReason;
    var f, w := q.wire[0], q.peers[y];
    var (p', q') := DeliverStep(p, q);
    Swap(p, q);
    PeerFacts(q, p, y);
    HeadFacts(p, q, f);
    if f.Close? && f.receiver == w {
      Processed(p, q);
      StopGoesOn(p.e, f, w);
      FarSame(q, q', p, p', y, w);
    } else {
      FrameGoesOn(p, q, f, w);
      LateIs(p.e, f);
      if LateAccept(p.e, f) { PeerFacts(p, q, f.receiver); }
      hide GoesOn;
      FarTold(q, q', p, p', y, w, StopIn(p.e, f), GoneIn(p.e, f));
    }
  }

  lemma LateIs(e: State, f: Frame)
    ensures LateAccept(e, f) ==> f.Accept?
  {
  }

  lemma FarSame(q: Side, q': Side, p: Side, p': Side, y: Id, w: Id)
    requires Told(q, p, y, w) && q'.e == q.e && p'.wire == p.wire && Alive(p'.e, w) == Alive(p.e, w) && Grown(p.e, p'.e, None)
    ensures Told(q', p', y, w)
  {
    forall f ensures f in Pipe(p) <==> f in p.wire || f in p.e.queue.frames { InPipe(p, f); }
    forall f ensures f in Pipe(p') <==> f in p'.wire || f in p'.e.queue.frames { InPipe(p', f); }
    hide Pipe, Alive, Awaiting;
  }

  // ---------- In every run ----------

  lemma TransmitTold(p: Side, q: Side)
    requires AllTold(p, q) && AllTold(q, p)
    ensures AllTold(TransmitStep(p), q) && AllTold(q, TransmitStep(p))
  {
    var p' := TransmitStep(p);
    if p.e.queue.frames != [] { assert p.e.queue.frames == [p.e.queue.frames[0]] + p.e.queue.frames[1..]; }
    assert Pipe(p') == Pipe(p);
    hide Pipe, StopComing, FrameLength;
    forall id: Id ensures Alive(p'.e, id) == Alive(p.e, id) && Present(p'.e, id) == Present(p.e, id)
                          && Halted(p'.e, id) == Halted(p.e, id) && Ended(p'.e, id) == Ended(p.e, id) { AwaitsSame(p.e, p'.e, id); }
    hide Alive, Present, Halted, Ended;
    forall z: Id | z in p'.peers ensures Told(p', q, z, p'.peers[z]) { assert Told(p, q, z, p.peers[z]); }
    forall z: Id | z in q.peers ensures Told(q, p', z, q.peers[z]) { assert Told(q, p, z, q.peers[z]); }
  }

  lemma ActTold(p: Side, q: Side, action: Action)
    requires PairInv(p, q) && Up(p, q) && p.e.limits.Valid() && AllTold(p, q) && AllTold(q, p)
    requires var (p', q') := Act(p, q, action); Up(p', q')
    ensures var (p', q') := Act(p, q, action); AllTold(p', q') && AllTold(q', p')
  {
    hide PairInv, AllTold, Perform, Receiving, TransmitStep;
    match action
    case Local(v) =>
      if !v.Receive? && !v.PopFrame? {
        StepShape(p, q, v);
        LocalTold(p, q, v);
      }
    case Transmit => TransmitTold(p, q);
    case Deliver => if q.wire != [] { DeliverTold(p, q); }
  }

  lemma {:induction false} RunTold(a: Limits, b: Limits, ms: seq<Move>)
    requires a.Valid() && b.Valid() && Multiplex.Open(Multiplex.Run(a, b, ms))
    ensures var s := Multiplex.Run(a, b, ms); AllTold(s.a, s.b) && AllTold(s.b, s.a)
    decreases |ms|
  {
    hide PairInv, Act, AllTold, Multiplex.Run;
    if ms == [] {
      StartTold(a, b);
    } else {
      var before, m := ms[..|ms| - 1], ms[|ms| - 1];
      var s := Multiplex.Run(a, b, before);
      RunStep(a, b, ms);
      RunInv(a, b, before);
      StepKeeps(s, m);
      RunTold(a, b, before);
      Swap(s.a, s.b);
      if m.byA { ActTold(s.a, s.b, m.action); } else { ActTold(s.b, s.a, m.action); }
    }
  }

  lemma StartTold(a: Limits, b: Limits)
    requires a.Valid() && b.Valid()
    ensures var s := Multiplex.Run(a, b, []); AllTold(s.a, s.b) && AllTold(s.b, s.a)
  {
  }

  /** The counterpart of the end of the stream: with no request to stop under way, a channel whose
      writer did not end it itself is closed for writing if and only if its reader is gone, dropped or
      cleaned up or never wanted. Then a flush fails and sends nothing. */
  lemma WriterStopped(a: Limits, b: Limits, ms: seq<Move>, side: bool, z: Id)
    requires a.Valid() && b.Valid() && Multiplex.Open(Multiplex.Run(a, b, ms))
    requires var s := Multiplex.Run(a, b, ms);
             z in Mine(s, side).e.channels && !Ended(Mine(s, side).e, z) && !StopComing(Pipe(Theirs(s, side)), z)
    ensures var s := Multiplex.Run(a, b, ms);
            var p, q := Mine(s, side), Theirs(s, side);
            && (p.e.channels[z].sender.closed <==> !Alive(q.e, p.e.channels[z].remote))
            && p.e.limits.Valid()
            && (!Alive(q.e, p.e.channels[z].remote) ==> Flush(p.e, z).1 == Broken && Flush(p.e, z).0.queue == p.e.queue)
  {
    hide PairInv, Multiplex.Run, Alive, StopComing;
    RunTold(a, b, ms);
    SideInv(a, b, ms, side);
    var s := Multiplex.Run(a, b, ms);
    var p, q := Mine(s, side), Theirs(s, side);
    ChannelFacts(p, q, z);
    assert Told(p, q, z, p.peers[z]);
    if p.e.channels[z].sender.closed { ClosedIsBroken(p.e, z); }
    hide LinkInv, ViewOf, Linked, Flush;
  }

  lemma ClosedIsBroken(e: State, z: Id)
    requires e.limits.Valid() && z in e.channels && e.channels[z].sender.closed
    ensures Flush(e, z).1 == Broken && Flush(e, z).0.queue == e.queue
  {
  }
}
