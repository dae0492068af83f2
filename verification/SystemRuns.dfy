/** Runs of two endpoints, and what holds in all of them. */
module SystemRuns {
  import opened Wrappers
  import opened FrameCodec
  import opened ConnectionLimits
  import opened OutgoingQueue
  import opened ReceiveWindow
  import opened Endpoint
  import opened EndpointSafety
  import opened Link
  import opened LinkSteps
  import opened Pipes
  import opened System
  import opened SystemSteps
  import opened SystemDelivery
  import opened SystemOpening
  import opened SystemLocal
  import opened SystemCleanup

  // ---------- Local steps ----------

  lemma AcceptStep(p: Side, q: Side, r: Incoming)
    requires PairInv(p, q) && LocalInv(AcceptChannel(p.e, r)) && p.e.limits.Valid()
    ensures var (p', q') := LocalStep(p, q, AcceptHeld(r)); !p'.e.closing ==> PairInv(p', q')
  {
    hide *;
    Performs(p.e, AcceptHeld(r));
    FreshChannel(p, q);
    AcceptOutcome(p, q, r);
    if r !in p.e.held {
      AcceptNothing(p.e, r);
    } else if !AcceptChannel(p.e, r).closing {
      PairParts(p, q);
      AcceptShape(p, r);
      AcceptHeldPair(p, q, r);
    }
  }

  /** What accepting does to the two sides and their histories. */
  lemma AcceptOutcome(p: Side, q: Side, r: Incoming)
    requires p.e.limits.Valid() && p.e.nextId !in p.e.channels && Perform(p.e, AcceptHeld(r)) == AcceptChannel(p.e, r)
    ensures LocalStep(p, q, AcceptHeld(r)) ==
            if p.e.nextId in AcceptChannel(p.e, r).channels then
              (p.(e := AcceptChannel(p.e, r), peers := p.peers[p.e.nextId := r.remote]), q.(peers := q.peers[r.remote := p.e.nextId]))
            else (p.(e := AcceptChannel(p.e, r)), q)
  {
    hide Perform, AcceptChannel;
  }

  lemma AcceptNothing(e: State, r: Incoming)
    requires e.limits.Valid()
    ensures r !in e.held ==> AcceptChannel(e, r) == e
  {
    hide Send;
  }

  lemma FreshChannel(p: Side, q: Side)
    requires PairInv(p, q)
    ensures p.e.nextId !in p.e.channels
  {
    LinkOf(p, q, p.e.nextId);
    Unallocated(p, p.e.nextId);
    hide LinkInv, PairInv, FarOf, Select, Pipe, Awaiting, CountTombstones;
    FreshView(ViewOf(p, q, p.e.nextId));
  }

  lemma FlushKept(p: Side, q: Side, id: Id)
    requires PairInv(p, q) && !p.e.closing && p.e.limits.Valid() && LocalInv(Flush(p.e, id).0) && !Flush(p.e, id).0.closing
    ensures PairInv(p.(e := Flush(p.e, id).0), q)
  {
    hide PairInv, LocalInv, Flush, CanSend;
    if CanSend(p.e, id) { FlushPair(p, q, id); } else { FlushIdle(p.e, id); }
  }

  lemma WriteKept(p: Side, q: Side, id: Id, buf: Bytes)
    requires PairInv(p, q) && p.e.limits.Valid() && LocalInv(Write(p.e, id, buf))
    ensures PairInv(p.(e := Write(p.e, id, buf)), q)
  {
    hide PairInv, LocalInv, WriteChunk;
    if Writable(p.e, id) { WritePair(p, q, id, buf); }
  }

  lemma DropReceiverKept(p: Side, q: Side, id: Id)
    requires PairInv(p, q) && !p.e.closing && p.e.limits.Valid() && LocalInv(DropReceiver(p.e, id)) && !DropReceiver(p.e, id).closing
    ensures PairInv(p.(e := DropReceiver(p.e, id)), q)
  {
    hide PairInv, LocalInv, Send;
    if ReceiverLive(p.e, id) { DropReceiverPair(p, q, id); }
  }

  lemma PullKept(p: Side, q: Side, id: Id, ff: bool, fb: bool)
    requires PairInv(p, q) && !p.e.closing && p.e.limits.Valid() && LocalInv(NextChunk(p.e, id, ff, fb)) && !NextChunk(p.e, id, ff, fb).closing
    ensures PairInv(p.(e := NextChunk(p.e, id, ff, fb)), q)
  {
    hide PairInv, LocalInv, Send, Consume, Returned;
    if ReceiverLive(p.e, id) && p.e.channels[id].receiver.buffer != [] && p.e.channels[id].receiver.partial.None? {
      NextChunkPair(p, q, id, ff, fb);
    }
  }

  lemma ReadKept(p: Side, q: Side, id: Id, room: nat)
    requires PairInv(p, q) && LocalInv(Read(p.e, id, room).0)
    ensures PairInv(p.(e := Read(p.e, id, room).0), q)
  {
    hide PairInv, LocalInv, Take;
    if ReceiverLive(p.e, id) && p.e.channels[id].receiver.partial.Some? { ReadPair(p, q, id, room); }
  }

  lemma CleanupStep(p: Side, q: Side, id: Id)
    requires PairInv(p, q) && p.e.limits.Valid() && LocalInv(CleanupChannel(p.e, id))
    ensures PairInv(LocalStep(p, q, CleanupClosed(id)).0, LocalStep(p, q, CleanupClosed(id)).1)
  {
    hide PairInv, LocalInv;
    if CleanupChannel(p.e, id) != p.e { CleanupClosedPair(p, q, id); }
  }

  /** Steps without effect on the histories. */
  predicate Plain(v: Event) { !v.Receive? && !v.PopFrame? && !v.AcceptHeld? && !v.CleanupClosed? }

  lemma PlainKeeps(p: Side, q: Side, v: Event)
    requires PairInv(p, q) && Up(p, q) && p.e.limits.Valid() && Plain(v)
    requires LocalInv(Perform(p.e, v)) && !Perform(p.e, v).closing
    ensures PairInv(p.(e := Perform(p.e, v)), q)
  {
    hide PairInv, LocalInv, OpenChannel, AcceptChannel, RejectIncoming, CleanupCancelled, CancelOpen, CleanupChannel, SendPriority;
    hide Flush, FinishClose, DropSender, Write, DropReceiver, NextChunk, Read, EvictTombstone;
    match v
    case Open(endpoint) => OpenPair(p, q, endpoint);
    case Cancel(id) => CancelStep(p, q, id);
    case Cleanup(id) => CleanupAwaits(p.e, id); CancelPair(p, q, p.(e := CleanupCancelled(p.e, id)));
    case RejectHeld(r, reason) => RejectStep(p, q, r, reason);
    case Evict => EvictStep(p, q);
    case SendPing => if p.e.helloReceived { PingPair(p, q); }
    case Terminate =>
    case FlushChunk(id) => FlushKept(p, q, id);
    case WriteBytes(id, buf) => WriteKept(p, q, id, buf);
    case CloseChannel(id) => FinishClosePair(p, q, id);
    case LoseSender(id) => DropSenderPair(p, q, id);
    case LoseReceiver(id) => DropReceiverKept(p, q, id);
    case PullChunk(id, ff, fb) => PullKept(p, q, id, ff, fb);
    case ReadBytes(id, room) => ReadKept(p, q, id, room);
  }

  lemma PlainStep(p: Side, q: Side, v: Event)
    requires p.e.limits.Valid() && Plain(v)
    ensures LocalStep(p, q, v) == (p.(e := Perform(p.e, v)), q)
  {
    hide Perform;
  }

  lemma LocalKeeps(p: Side, q: Side, v: Event)
    requires PairInv(p, q) && Up(p, q) && p.e.limits.Valid()
    ensures var (p', q') := LocalStep(p, q, v); Up(p', q') ==> PairInv(p', q')
  {
    PairValid(p, q);
    hide PairInv, LocalInv, Perform, CleanupChannel, AcceptChannel;
    if v.Receive? || v.PopFrame? {
    } else {
      EventKeeps(p.e, v);
      if v.AcceptHeld? {
        assert Perform(p.e, v) == AcceptChannel(p.e, v.r) by { Performs(p.e, v); }
        AcceptStep(p, q, v.r);
      } else if v.CleanupClosed? {
        assert Perform(p.e, v) == CleanupChannel(p.e, v.id) by { Performs(p.e, v); }
        CleanupStep(p, q, v.id);
      } else {
        PlainStep(p, q, v);
        if !Perform(p.e, v).closing { PlainKeeps(p, q, v); }
      }
    }
  }

  lemma CancelStep(p: Side, q: Side, id: Id)
    requires PairInv(p, q) && LocalInv(CancelOpen(p.e, id))
    ensures PairInv(p.(e := CancelOpen(p.e, id)), q)
  {
    CancelAwaits(p.e, id);
    hide PairInv, LocalInv, Awaiting;
    CancelPair(p, q, p.(e := CancelOpen(p.e, id)));
  }

  lemma RejectStep(p: Side, q: Side, r: Incoming, reason: Bytes)
    requires PairInv(p, q) && p.e.limits.Valid() && !RejectIncoming(p.e, r, reason).closing && LocalInv(RejectIncoming(p.e, r, reason))
    ensures PairInv(p.(e := RejectIncoming(p.e, r, reason)), q)
  {
    hide PairInv, LocalInv, Send;
    if r in p.e.held { RejectHeldPair(p, q, r, reason); }
  }

  lemma EvictStep(p: Side, q: Side)
    requires PairInv(p, q) && LocalInv(EvictTombstone(p.e))
    ensures PairInv(p.(e := EvictTombstone(p.e)), q)
  {
    hide PairInv, LocalInv;
    if |p.e.tombstones| > p.e.limits.maxTombstones { EvictPair(p, q); }
  }

  // ---------- Deliveries ----------

  /** What a conforming peer can at worst provoke: a text longer than this side accepts, or a full
      queue here. */
  predicate Benign(o: Outcome) {
    !o.SlotAssertion? && (o.Violates? ==> o.v.PayloadTooLarge? || o.v.QueueLimit?)
  }

  /** The id's channel was accepted once and is closed by now, and its tombstone is gone. */
  ghost predicate Forgotten(p: Side, id: Id) {
    id in p.peers && id !in p.e.channels && Awaiting(p.e, id) == 0 && FindTombstone(p.e.tombstones, id).None?
  }

  /** After processing, unless that ended the connection, the pair is in order again. */
  ghost predicate Settled(p: Side, q: Side, result: (State, Outcome))
    requires q.wire != []
  {
    && Benign(result.1)
    && (!result.1.Violates? && !result.0.closing ==> PairInv(p.(e := result.0), Taken(q)))
  }

  lemma RequestDelivered(p: Side, q: Side)
    requires PairInv(p, q) && Up(p, q) && p.e.limits.Valid() && q.wire != [] && q.wire[0].Request?
    requires LocalInv(HandleRequest(p.e, q.wire[0]).0)
    ensures Settled(p, q, HandleRequest(p.e, q.wire[0]))
  {
    hide PairInv, LocalInv, Send;
    var x := q.wire[0].sender;
    RequestHead(p, q, x);
    if HandleRequest(p.e, q.wire[0]).1.Requested? {
      RequestHeldPair(p, q, x);
    } else if !HandleRequest(p.e, q.wire[0]).0.closing {
      RequestRejectedPair(p, q, x, LimitReason());
    }
  }

  lemma AcceptDelivered(p: Side, q: Side)
    requires PairInv(p, q) && Up(p, q) && p.e.limits.Valid() && q.wire != [] && q.wire[0].Accept?
    requires LocalInv(HandleAccept(p.e, q.wire[0]).0) && HandleAccept(p.e, q.wire[0]).1 != SlotAssertion
    ensures Settled(p, q, HandleAccept(p.e, q.wire[0]))
  {
    hide PairInv, LocalInv, Send;
    var z := q.wire[0].receiver;
    AcceptHead(p, q, z);
    AwaitedOnce(p.e, z);
    if z in p.e.pending {
      AcceptPair(p, q, z);
    } else if !HandleAccept(p.e, q.wire[0]).1.Violates? {
      LateAcceptPair(p, q, z);
    }
  }

  lemma DataDelivered(p: Side, q: Side)
    requires PairInv(p, q) && q.wire != [] && q.wire[0].Data?
    requires LocalInv(HandleData(p.e, q.wire[0].receiver, q.wire[0].payload).0)
    ensures Settled(p, q, HandleData(p.e, q.wire[0].receiver, q.wire[0].payload))
    ensures HandleData(p.e, q.wire[0].receiver, q.wire[0].payload).1.Unknown? ==> Forgotten(p, q.wire[0].receiver)
  {
    hide PairInv, LocalInv, HandleData, Awaiting, FindTombstone;
    var z := q.wire[0].receiver;
    if z in p.e.channels {
      DataPair(p, q, z);
    } else {
      GoneFacts(p, q, z);
      LateDataPair(p, q, z);
    }
  }

  lemma GoneFacts(p: Side, q: Side, z: Id)
    requires PairInv(p, q) && q.wire != [] && KeyOf(q.wire[0]) == To(z) && !q.wire[0].Accept? && !q.wire[0].Reject?
    ensures z in p.peers && Awaiting(p.e, z) == 0
  {
    OrdinaryHead(p, q, z);
    hide PairInv, Select, Pipe, Awaiting, CountTombstones, FarOf;
  }

  lemma AdjustDelivered(p: Side, q: Side)
    requires PairInv(p, q) && q.wire != [] && q.wire[0].Adjust?
    requires LocalInv(p.e) && LocalInv(HandleAdjust(p.e, q.wire[0].receiver, Credits(q.wire[0].frames, q.wire[0].bytes)).0)
    ensures Settled(p, q, HandleAdjust(p.e, q.wire[0].receiver, Credits(q.wire[0].frames, q.wire[0].bytes)))
    ensures HandleAdjust(p.e, q.wire[0].receiver, Credits(q.wire[0].frames, q.wire[0].bytes)).1.Unknown? ==> Forgotten(p, q.wire[0].receiver)
  {
    hide LocalInv, Awaiting, FindTombstone;
    var z := q.wire[0].receiver;
    AdjustHasFrames(p, q);
    hide PairInv;
    var add := Credits(q.wire[0].frames, q.wire[0].bytes);
    if z in p.e.channels {
      hide HandleAdjust;
      AdjustPair(p, q, z, add);
    } else {
      GoneFacts(p, q, z);
      LateControlPair(p, q, z);
    }
  }

  lemma AdjustHasFrames(p: Side, q: Side)
    requires PairInv(p, q) && q.wire != [] && q.wire[0].Adjust?
    ensures 0 < q.wire[0].frames
  {
    PairParts(p, q);
    TakenPipe(q);
    hide PairInv, Pipe;
  }

  lemma CloseDelivered(p: Side, q: Side)
    requires PairInv(p, q) && q.wire != [] && q.wire[0].Close?
    requires LocalInv(p.e) && LocalInv(HandleClose(p.e, q.wire[0].receiver).0)
    ensures Settled(p, q, HandleClose(p.e, q.wire[0].receiver))
    ensures HandleClose(p.e, q.wire[0].receiver).1.Unknown? ==> Forgotten(p, q.wire[0].receiver)
  {
    hide PairInv, LocalInv, Awaiting, FindTombstone;
    var z := q.wire[0].receiver;
    if z in p.e.channels {
      ClosePair(p, q, z);
    } else {
      GoneFacts(p, q, z);
      LateControlPair(p, q, z);
    }
  }

  lemma ClosedDelivered(p: Side, q: Side)
    requires PairInv(p, q) && q.wire != [] && q.wire[0].Closed?
    requires LocalInv(p.e) && LocalInv(HandleClosed(p.e, q.wire[0].receiver).0)
    ensures Settled(p, q, HandleClosed(p.e, q.wire[0].receiver))
    ensures HandleClosed(p.e, q.wire[0].receiver).1.Unknown? ==> Forgotten(p, q.wire[0].receiver)
  {
    hide PairInv, LocalInv, Awaiting, FindTombstone;
    var z := q.wire[0].receiver;
    if z in p.e.channels {
      ClosedPair(p, q, z);
    } else {
      GoneFacts(p, q, z);
      LateControlPair(p, q, z);
    }
  }

  lemma DecodedHead(p: Side, q: Side)
    requires PairInv(p, q) && q.wire != []
    ensures Decoded(q.wire[0])
  {
    hide PairInv;
    if q.wire[0].Accept? { AcceptHead(p, q, q.wire[0].receiver); }
    if q.wire[0].Request? { RequestHead(p, q, q.wire[0].sender); }
    hide ViewOf, Select, Pipe, LinkInv;
  }

  lemma DispatchDelivered(p: Side, q: Side)
    requires PairInv(p, q) && Up(p, q) && p.e.limits.Valid() && q.wire != []
    ensures Settled(p, q, Dispatch(p.e, q.wire[0]))
    ensures Dispatch(p.e, q.wire[0]).1.Unknown? ==> KeyOf(q.wire[0]).To? && Forgotten(p, KeyOf(q.wire[0]).id)
  {
    PairValid(p, q);
    DecodedHead(p, q);
    DispatchKeeps(p.e, q.wire[0]);
    hide *;
    Dispatches(p.e, q.wire[0]);
    match q.wire[0]
    case Request(_, _, _, _) => NoUnknown(p.e, q.wire[0]); RequestDelivered(p, q);
    case Accept(_, _, _, _) => NoUnknown(p.e, q.wire[0]); AcceptDelivered(p, q);
    case Reject(id, _) => RejectDelivered(p, q);
    case Data(_, _) => DataDelivered(p, q);
    case Adjust(_, _, _) => AdjustDelivered(p, q);
    case Close(_, _) => CloseDelivered(p, q);
    case Closed(_, _) => ClosedDelivered(p, q);
    case _ => NeutralDelivered(p, q);
  }

  /** Which handler a frame goes to, and which id it concerns. */
  lemma Dispatches(e: State, f: Frame)
    requires e.limits.Valid()
    ensures f.Request? ==> Dispatch(e, f) == HandleRequest(e, f)
    ensures f.Accept? ==> Dispatch(e, f) == HandleAccept(e, f)
    ensures f.Reject? ==> Dispatch(e, f) == HandleReject(e, f.receiver)
    ensures f.Data? ==> Dispatch(e, f) == HandleData(e, f.receiver, f.payload) && KeyOf(f) == To(f.receiver)
    ensures f.Adjust? ==> Dispatch(e, f) == HandleAdjust(e, f.receiver, Credits(f.frames, f.bytes)) && KeyOf(f) == To(f.receiver)
    ensures f.Close? ==> Dispatch(e, f) == HandleClose(e, f.receiver) && KeyOf(f) == To(f.receiver)
    ensures f.Closed? ==> Dispatch(e, f) == HandleClosed(e, f.receiver) && KeyOf(f) == To(f.receiver)
    ensures f.Hello? || f.ConnectionClose? || f.Ping? || f.Pong? ==> KeyOf(f) == Nobody
  {
    hide HandleRequest, HandleAccept, HandleReject, HandleData, HandleAdjust, HandleClose, HandleClosed, SendPriority;
  }

  lemma RejectDelivered(p: Side, q: Side)
    requires PairInv(p, q) && q.wire != [] && q.wire[0].Reject? && LocalInv(HandleReject(p.e, q.wire[0].receiver).0)
    ensures Settled(p, q, HandleReject(p.e, q.wire[0].receiver)) && !HandleReject(p.e, q.wire[0].receiver).1.Unknown?
  {
    hide PairInv, LocalInv, HandleReject;
    RejectPair(p, q, q.wire[0].receiver);
  }

  lemma NeutralDelivered(p: Side, q: Side)
    requires PairInv(p, q) && Up(p, q) && p.e.limits.Valid() && q.wire != [] && KeyOf(q.wire[0]) == Nobody
    requires LocalInv(Dispatch(p.e, q.wire[0]).0)
    ensures Settled(p, q, Dispatch(p.e, q.wire[0])) && !Dispatch(p.e, q.wire[0]).1.Unknown?
  {
    hide PairInv, LocalInv, SendPriority, HandleRequest, HandleAccept, HandleReject, HandleData, HandleAdjust, HandleClose, HandleClosed;
    if q.wire[0].Hello? { HelloPair(p, q); } else { PongPair(p, q); }
  }

  lemma NoUnknown(e: State, f: Frame)
    requires e.limits.Valid()
    ensures f.Request? ==> !HandleRequest(e, f).1.Unknown?
    ensures f.Accept? ==> !HandleAccept(e, f).1.Unknown?
  {
    hide Send;
  }

  lemma HandleDelivered(p: Side, q: Side)
    requires PairInv(p, q) && Up(p, q) && p.e.limits.Valid() && q.wire != []
    ensures Settled(p, q, Handle(p.e, q.wire[0]))
    ensures Handle(p.e, q.wire[0]).1.Unknown? ==> KeyOf(q.wire[0]).To? && Forgotten(p, KeyOf(q.wire[0]).id)
  {
    var f := q.wire[0];
    Greeted(p, q);
    hide PairInv, LocalInv, Dispatch, Forgotten;
    if ControlPayload(f) > p.e.limits.maxControlPayload {
      if f.Request? {
        var reason := Ascii("channel endpoint too large");
        PairParts(p, q);
        SendKeeps(p.e, Reject(f.sender, reason));
        hide Send, Ascii;
        if !Send(p.e, Reject(f.sender, reason)).closing { RequestRejectedPair(p, q, f.sender, reason); }
      }
    } else {
      DispatchDelivered(p, q);
    }
  }

  /** The first frame to arrive is the peer's Hello, and no other one follows. */
  lemma Greeted(p: Side, q: Side)
    requires PairInv(p, q) && q.wire != []
    ensures !p.e.helloReceived <==> q.wire[0].Hello?
    ensures q.wire[0].Hello? ==> q.wire[0] == HelloFrame()
  {
    PairParts(p, q);
    TakenPipe(q);
    hide PairInv, Pipe;
  }

  lemma DeliverKeeps(p: Side, q: Side)
    requires PairInv(p, q) && Up(p, q) && p.e.limits.Valid()
    ensures var (p', q') := DeliverStep(p, q); Up(p', q') ==> PairInv(p', q')
  {
    if q.wire != [] { HandleDelivered(p, q); }
    hide PairInv, Handle;
  }

  lemma TransmitKeeps(p: Side, q: Side)
    requires PairInv(p, q)
    ensures PairInv(TransmitStep(p), q)
  {
    PairParts(p, q);
    PopKeepsBudget(p.e);
    hide PairInv, LocalInv;
    TransmitPair(p, q);
  }

  lemma ActKeeps(p: Side, q: Side, action: Action)
    requires PairInv(p, q) && Up(p, q) && p.e.limits.Valid()
    ensures var (p', q') := Act(p, q, action); Up(p', q') ==> PairInv(p', q')
  {
    hide PairInv, LocalStep, DeliverStep, TransmitStep;
    match action
    case Local(v) => LocalKeeps(p, q, v);
    case Transmit => TransmitKeeps(p, q);
    case Deliver => DeliverKeeps(p, q);
  }
}
