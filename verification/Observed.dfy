/** The reliable stream as its two callers see it: what writes reported to have taken, and what reads
    handed out. */
module Observed {
  import opened Wrappers
  import opened FrameCodec
  import opened ConnectionLimits
  import opened OutgoingQueue
  import opened ReceiveWindow
  import opened Endpoint
  import opened EndpointSafety
  import opened EndpointDuties
  import opened Link
  import opened LinkUpdates
  import opened Pipes
  import opened System
  import opened SystemSteps
  import opened SystemDelivery
  import opened SystemOpening
  import opened SystemLocal
  import opened SystemRuns
  import opened Multiplex

  // ---------- What one event tells a caller ----------

  function ReadBy(e: State, v: Event, id: Id): Bytes {
    if v.ReadBytes? && v.id == id then
      match Read(e, id, v.room).1
      case Ready(bytes) => bytes
      case NotReady => []
    else []
  }

  function WrittenBy(e: State, v: Event, id: Id): Bytes
    requires e.limits.Valid()
  {
    if v.WriteBytes? && v.id == id && WriteCount(e, id, v.buf) <= |v.buf| then v.buf[..WriteCount(e, id, v.buf)] else []
  }

  /** All that reads of the channel handed out in the run, in order. */
  function AllRead(a: Limits, b: Limits, ms: seq<Move>, side: bool, id: Id): Bytes
    requires a.Valid() && b.Valid()
    decreases |ms|
  {
    if ms == [] then []
    else
      var before, m := ms[..|ms| - 1], ms[|ms| - 1];
      AllRead(a, b, before, side, id)
      + if m.byA == side && m.action.Local? then ReadBy(Mine(Multiplex.Run(a, b, before), side).e, m.action.v, id) else []
  }

  /** All that writes to the channel reported to have taken, in order. */
  function AllWritten(a: Limits, b: Limits, ms: seq<Move>, side: bool, id: Id): Bytes
    requires a.Valid() && b.Valid()
    decreases |ms|
  {
    if ms == [] then []
    else
      var before, m := ms[..|ms| - 1], ms[|ms| - 1];
      AllWritten(a, b, before, side, id)
      + if m.byA == side && m.action.Local? then WrittenBy(Mine(Multiplex.Run(a, b, before), side).e, m.action.v, id) else []
  }

  // ---------- The histories of an endpoint are what its callers were told ----------

  /** What an event adds to a channel, and which channels there are afterwards. */
  ghost predicate Recorded(e: State, e': State, id: Id, got: Bytes, put: Bytes) {
    && (id in e.channels && id in e'.channels ==>
          && e'.channels[id].receiver.taken == e.channels[id].receiver.taken + got
          && e'.channels[id].sender.accepted == e.channels[id].sender.accepted + put)
    && (id in e.channels && id !in e'.channels ==> got == [] == put)
    && (id !in e.channels ==> got == [] == put)
    && (id !in e.channels && id in e'.channels ==>
          && e'.channels[id].receiver.taken == [] == e'.channels[id].sender.accepted
          && (id == e.nextId || id in e.pending))
    && e.nextId <= e'.nextId && (id in e'.pending ==> id in e.pending || id == e.nextId)
  }

  /** Nothing was read or written. */
  ghost predicate Silent(e: State, e': State, id: Id) { Recorded(e, e', id, [], []) }

  lemma NothingAdded(x: Bytes)
    ensures x + [] == x
  {
  }

  /** Channel histories unchanged, and no new ids. */
  lemma SameHistories(e: State, e': State, id: Id)
    requires e'.channels.Keys <= e.channels.Keys && e.nextId <= e'.nextId && (id in e'.pending ==> id in e.pending || id == e.nextId)
    requires id in e'.channels ==> e'.channels[id].receiver.taken == e.channels[id].receiver.taken
                                   && e'.channels[id].sender.accepted == e.channels[id].sender.accepted
    ensures Silent(e, e', id)
  {
  }

  lemma OpenSilent(e: State, endpoint: Bytes, id: Id)
    requires e.limits.Valid()
    ensures Silent(e, OpenChannel(e, endpoint), id)
  {
    hide Send, OccupiedSlots;
    SendOnly(e.(nextId := e.nextId + 1), Request(e.nextId, INITIAL_FRAME_CREDIT, INITIAL_BYTE_CREDIT, endpoint));
    SameHistories(e, OpenChannel(e, endpoint), id);
  }

  lemma AcceptSilent(e: State, r: Incoming, id: Id)
    requires e.limits.Valid() && e.nextId !in e.channels
    ensures Silent(e, AcceptChannel(e, r), id)
  {
    hide Send, LimitReason;
    var e1 := e.(held := e.held - multiset{r});
    SendOnly(e1, Reject(r.remote, LimitReason()));
    SendOnly(e1.(nextId := e.nextId + 1), Accept(r.remote, e.nextId, INITIAL_FRAME_CREDIT, INITIAL_BYTE_CREDIT));
    if id in e.channels {
      NothingAdded(e.channels[id].receiver.taken);
      NothingAdded(e.channels[id].sender.accepted);
    }
  }

  lemma RejectSilent(e: State, r: Incoming, reason: Bytes, id: Id)
    requires e.limits.Valid()
    ensures Silent(e, RejectIncoming(e, r, reason), id)
  {
    hide Send, Silent;
    SendOnly(e.(held := e.held - multiset{r}), Reject(r.remote, reason));
    SameHistories(e, RejectIncoming(e, r, reason), id);
  }

  lemma FlushSilent(e: State, at: Id, id: Id)
    requires e.limits.Valid()
    ensures Silent(e, Flush(e, at).0, id)
  {
    hide TryQueue, Silent;
    SameHistories(e, Flush(e, at).0, id);
  }

  lemma EndSilent(e: State, at: Id, id: Id)
    requires e.limits.Valid()
    ensures Silent(e, FinishClose(e, at), id) && Silent(e, DropSender(e, at), id)
  {
    hide Send, Silent;
    if at in e.channels { SendOnly(e, Closed(e.channels[at].remote, [])); }
    SameHistories(e, FinishClose(e, at), id);
    SameHistories(e, DropSender(e, at), id);
  }

  lemma LoseSilent(e: State, at: Id, id: Id)
    requires e.limits.Valid()
    ensures Silent(e, DropReceiver(e, at), id)
  {
    hide Send, Silent;
    if at in e.channels { SendOnly(e, Close(e.channels[at].remote, [])); }
    SameHistories(e, DropReceiver(e, at), id);
  }

  lemma PullSilent(e: State, at: Id, ff: bool, fb: bool, id: Id)
    requires e.limits.Valid()
    ensures Silent(e, NextChunk(e, at, ff, fb), id)
  {
    hide Send, Doubled, Growth, Silent;
    if at in e.channels && e.channels[at].receiver.buffer != [] {
      var add := Consume(e.channels[at].receiver, ff, fb).1;
      if add.Some? { SendOnly(e, Adjust(e.channels[at].remote, add.value.frames, add.value.bytes)); }
    }
    SameHistories(e, NextChunk(e, at, ff, fb), id);
  }

  lemma WriteRecorded(e: State, at: Id, buf: Bytes, id: Id)
    requires e.limits.Valid()
    ensures Recorded(e, Write(e, at, buf), id, [], WrittenBy(e, WriteBytes(at, buf), id))
  {
    if SenderLive(e, at) { WriteReports(e.channels[at].sender, buf, e.limits.MaxPayload()); }
    hide WriteChunk;
    if id in e.channels {
      NothingAdded(e.channels[id].receiver.taken);
      NothingAdded(e.channels[id].sender.accepted);
      assert buf[..0] == [];
    }
  }

  lemma ReadRecorded(e: State, at: Id, room: nat, id: Id)
    ensures Recorded(e, Read(e, at, room).0, id, ReadBy(e, ReadBytes(at, room), id), [])
  {
    if ReceiverLive(e, at) && e.channels[at].receiver.partial.Some? { TakeHandsOut(e.channels[at].receiver, room); }
    hide Take;
    if id in e.channels {
      NothingAdded(e.channels[id].receiver.taken);
      NothingAdded(e.channels[id].sender.accepted);
    }
  }

  lemma OtherSilent(e: State, v: Event, id: Id)
    requires e.limits.Valid() && (v.Cancel? || v.Cleanup? || v.CleanupClosed? || v.Evict? || v.Terminate?)
    ensures Silent(e, Perform(e, v), id)
  {
    SameHistories(e, Perform(e, v), id);
    hide Silent;
  }

  lemma PerformRecorded(e: State, v: Event, id: Id)
    requires e.limits.Valid() && e.nextId !in e.channels && !v.Receive? && !v.PopFrame?
    ensures Recorded(e, Perform(e, v), id, ReadBy(e, v, id), WrittenBy(e, v, id))
  {
    assert !v.ReadBytes? ==> ReadBy(e, v, id) == [];
    assert !v.WriteBytes? ==> WrittenBy(e, v, id) == [];
    SilentIs(e, Perform(e, v), id);
    Performs(e, v);
    hide *;
    match v
    case Open(endpoint) => OpenSilent(e, endpoint, id);
    case AcceptHeld(r) => AcceptSilent(e, r, id);
    case RejectHeld(r, reason) => RejectSilent(e, r, reason, id);
    case FlushChunk(at) => FlushSilent(e, at, id);
    case CloseChannel(at) => EndSilent(e, at, id);
    case LoseSender(at) => EndSilent(e, at, id);
    case LoseReceiver(at) => LoseSilent(e, at, id);
    case PullChunk(at, ff, fb) => PullSilent(e, at, ff, fb, id);
    case WriteBytes(at, buf) => WriteRecorded(e, at, buf, id);
    case ReadBytes(at, room) => ReadRecorded(e, at, room, id);
    case SendPing =>
      if e.helloReceived { SendOnly(e, Ping); }
      SameHistories(e, Perform(e, v), id);
    case _ => OtherSilent(e, v, id);
  }

  lemma SilentIs(e: State, e': State, id: Id)
    ensures Silent(e, e', id) <==> Recorded(e, e', id, [], [])
  {
  }

  lemma RequestSilent(e: State, f: Frame, id: Id)
    requires e.limits.Valid() && f.Request?
    ensures Silent(e, HandleRequest(e, f).0, id)
  {
    hide Send, LimitReason, Silent;
    SendOnly(e, Reject(f.sender, LimitReason()));
    SameHistories(e, HandleRequest(e, f).0, id);
  }

  lemma AcceptFrameSilent(e: State, f: Frame, id: Id)
    requires e.limits.Valid() && f.Accept? && (f.receiver in e.pending ==> f.receiver !in e.channels)
    ensures Silent(e, HandleAccept(e, f).0, id)
  {
    hide Send, CancelReason, Without;
    var e1 := e.(cancelled := Without(e.cancelled, f.receiver));
    SendOnly(e1, Close(f.sender, CancelReason()));
    SendOnly(Send(e1, Close(f.sender, CancelReason())), Closed(f.sender, CancelReason()));
    assert id in e.channels ==> e.channels[id].receiver.taken + [] == e.channels[id].receiver.taken
                                && e.channels[id].sender.accepted + [] == e.channels[id].sender.accepted;
  }

  lemma DataFrameSilent(e: State, f: Frame, id: Id)
    requires e.limits.Valid() && f.Data?
    ensures Silent(e, HandleData(e, f.receiver, f.payload).0, id)
  {
    hide FindTombstone, SpendTombstone, Silent;
    SameHistories(e, HandleData(e, f.receiver, f.payload).0, id);
  }

  lemma ChannelFrameSilent(e: State, f: Frame, id: Id)
    requires e.limits.Valid() && (f.Adjust? || f.Close? || f.Closed? || f.Reject?)
    ensures Silent(e, Dispatch(e, f).0, id)
  {
    hide FindTombstone, Without, Silent, HandleData, HandleAccept, HandleRequest;
    SameHistories(e, Dispatch(e, f).0, id);
  }

  lemma OtherFrameSilent(e: State, f: Frame, id: Id)
    requires e.limits.Valid() && (f.Hello? || f.ConnectionClose? || f.Ping? || f.Pong?)
    ensures Silent(e, Dispatch(e, f).0, id)
  {
    hide SendPriority, Silent;
    SendOnly(e, Pong);
    SameHistories(e, Dispatch(e, f).0, id);
  }

  lemma HandleSilent(e: State, f: Frame, id: Id)
    requires e.limits.Valid() && (f.Accept? && f.receiver in e.pending ==> f.receiver !in e.channels)
    ensures Silent(e, Handle(e, f).0, id)
  {
    SameHistories(e, e, id);
    if f.Request? {
      var reject := Reject(f.sender, Ascii("channel endpoint too large"));
      SendOnly(e, reject);
      SameHistories(e, Send(e, reject), id);
    }
    hide Silent, Send, Ascii, Dispatch;
    if ControlPayload(f) <= e.limits.maxControlPayload {
      Dispatches(e, f);
      match f
      case Request(_, _, _, _) => RequestSilent(e, f, id);
      case Accept(_, _, _, _) => AcceptFrameSilent(e, f, id);
      case Hello(_, _) => OtherFrameSilent(e, f, id);
      case ConnectionClose(_) => OtherFrameSilent(e, f, id);
      case Ping => OtherFrameSilent(e, f, id);
      case Pong => OtherFrameSilent(e, f, id);
      case Data(_, _) => DataFrameSilent(e, f, id);
      case _ => ChannelFrameSilent(e, f, id);
    }
  }

  // ---------- In every run ----------

  /** The histories of a channel, also of one that was cleaned up, are what its callers were told; and
      nobody was told anything of an id that is still to become a channel. */
  ghost predicate Faithful(p: Side, id: Id, read: Bytes, written: Bytes) {
    && (id in p.e.channels ==> read == p.e.channels[id].receiver.taken && written == p.e.channels[id].sender.accepted)
    && (id !in p.e.channels && id in p.graves ==> written == p.graves[id].sender.accepted)
    && (id >= p.e.nextId || id in p.e.pending ==> read == [] == written)
    && (read != [] || written != [] ==> id in p.peers)
  }

  /** A channel's id is neither new nor awaited, and is not that of a channel that was cleaned up. */
  lemma ChannelIdUsed(p: Side, q: Side, id: Id)
    requires PairInv(p, q)
    ensures id in p.e.channels ==> id < p.e.nextId && id !in p.e.pending && id !in p.graves && id in p.peers
    ensures id in p.graves && id !in p.e.channels ==> id < p.e.nextId
  {
    LinkOf(p, q, id);
    UsedView(ViewOf(p, q, id));
    hide LinkInv, PairInv, Select, Pipe, FarOf, CountTombstones;
  }

  lemma UsedView(v: View)
    requires LinkInv(v)
    ensures v.near.snd.Some? ==> !v.near.unallocated && v.near.awaiting == 0 && v.near.grave.None? && v.near.peer.Some?
    ensures v.near.grave.Some? ==> !v.near.unallocated
  {
    hide DirectionInv, Matched, Total;
  }

  lemma FaithfulStep(p: Side, p': Side, id: Id, got: Bytes, put: Bytes, read: Bytes, written: Bytes)
    requires Faithful(p, id, read, written) && Recorded(p.e, p'.e, id, got, put)
    requires id in p.e.channels ==> id < p.e.nextId && id !in p.e.pending && id !in p.graves && id in p.peers
    requires id in p.graves && id !in p.e.channels ==> id < p.e.nextId
    requires id in p.peers ==> id in p'.peers
    requires id !in p'.e.channels && id in p'.graves ==> if id in p.e.channels then p'.graves[id] == p.e.channels[id] else id in p.graves && p'.graves[id] == p.graves[id]
    ensures Faithful(p', id, read + got, written + put)
  {
    NothingAdded(read);
    NothingAdded(written);
  }

  lemma LocalFaithful(p: Side, q: Side, v: Event, id: Id, read: Bytes, written: Bytes)
    requires PairInv(p, q) && p.e.limits.Valid() && Faithful(p, id, read, written)
    ensures Faithful(LocalStep(p, q, v).0, id, read + ReadBy(p.e, v, id), written + WrittenBy(p.e, v, id))
  {
    NothingAdded(read);
    NothingAdded(written);
    if !v.Receive? && !v.PopFrame? {
      ChannelIdUsed(p, q, id);
      FreshChannel(p, q);
      PerformRecorded(p.e, v, id);
      var p' := LocalStep(p, q, v).0;
      LocalShape(p, q, v);
      hide PairInv, Perform, Recorded, Faithful, LocalStep, ReadBy, WrittenBy;
      FaithfulStep(p, p', id, ReadBy(p.e, v, id), WrittenBy(p.e, v, id), read, written);
    } else {
      hide PairInv, Perform;
    }
  }

  /** What a local step does to the histories of the side that takes it. */
  lemma LocalShape(p: Side, q: Side, v: Event)
    requires p.e.limits.Valid() && !v.Receive? && !v.PopFrame?
    ensures var p' := LocalStep(p, q, v).0;
            && p'.e == Perform(p.e, v)
            && (forall x :: x in p.peers ==> x in p'.peers)
            && (forall x :: x in p'.graves && x !in p'.e.channels ==>
                  if x in p.e.channels then p'.graves[x] == p.e.channels[x] else x in p.graves && p'.graves[x] == p.graves[x])
  {
    Performs(p.e, v);
    if v.CleanupClosed? { CleanupOne(p.e, v.id); } else { RemovesOnlyClosed(p.e, v); }
    hide Perform;
  }

  lemma CleanupOne(e: State, id: Id)
    ensures forall x :: x in e.channels && x !in CleanupChannel(e, id).channels ==> x == id
    ensures CleanupChannel(e, id).channels.Keys <= e.channels.Keys
  {
  }

  lemma OpeningKeepsChannels(e: State, endpoint: Bytes, r: Incoming, reason: Bytes)
    requires e.limits.Valid()
    ensures e.channels.Keys <= OpenChannel(e, endpoint).channels.Keys && e.channels.Keys <= AcceptChannel(e, r).channels.Keys
    ensures e.channels.Keys <= RejectIncoming(e, r, reason).channels.Keys
  {
    hide Send, LimitReason, NewChannel, OccupiedSlots;
    SendOnly(e.(nextId := e.nextId + 1), Request(e.nextId, INITIAL_FRAME_CREDIT, INITIAL_BYTE_CREDIT, endpoint));
    var e1 := e.(held := e.held - multiset{r});
    SendOnly(e1, Reject(r.remote, reason));
    SendOnly(e1, Reject(r.remote, LimitReason()));
    SendOnly(e1.(nextId := e.nextId + 1), Accept(r.remote, e.nextId, INITIAL_FRAME_CREDIT, INITIAL_BYTE_CREDIT));
  }

  lemma SenderKeepsChannels(e: State, at: Id, buf: Bytes)
    requires e.limits.Valid()
    ensures Flush(e, at).0.channels.Keys == Write(e, at, buf).channels.Keys == e.channels.Keys
    ensures FinishClose(e, at).channels.Keys == DropSender(e, at).channels.Keys == e.channels.Keys
  {
    hide Send, TryQueue, WriteChunk, ChunkSent;
    if at in e.channels { SendOnly(e, Closed(e.channels[at].remote, [])); }
  }

  lemma ReceiverKeepsChannels(e: State, at: Id, room: nat)
    requires e.limits.Valid()
    ensures DropReceiver(e, at).channels.Keys == Read(e, at, room).0.channels.Keys == e.channels.Keys
  {
    hide Send, Take;
    if at in e.channels { SendOnly(e, Close(e.channels[at].remote, [])); }
  }

  lemma PullKeepsChannels(e: State, at: Id, ff: bool, fb: bool)
    requires e.limits.Valid()
    ensures NextChunk(e, at, ff, fb).channels.Keys == e.channels.Keys
  {
    hide Send, Doubled, Growth;
    if at in e.channels && e.channels[at].receiver.buffer != [] {
      var add := Consume(e.channels[at].receiver, ff, fb).1;
      if add.Some? { SendOnly(e, Adjust(e.channels[at].remote, add.value.frames, add.value.bytes)); }
    }
  }

  lemma OthersKeepChannels(e: State, v: Event)
    requires e.limits.Valid() && (v.Cancel? || v.Cleanup? || v.Evict? || v.SendPing? || v.Terminate?)
    ensures Perform(e, v).channels == e.channels
  {
    hide TryQueuePriority;
  }

  /** Channels disappear only when they are cleaned up. */
  lemma RemovesOnlyClosed(e: State, v: Event)
    requires e.limits.Valid() && !v.CleanupClosed? && !v.Receive? && !v.PopFrame?
    ensures e.channels.Keys <= Perform(e, v).channels.Keys
  {
    hide *;
    Performs(e, v);
    match v
    case Open(endpoint) => OpeningKeepsChannels(e, endpoint, Incoming(0, INITIAL_CREDITS), []);
    case AcceptHeld(r) => OpeningKeepsChannels(e, [], r, []);
    case RejectHeld(r, reason) => OpeningKeepsChannels(e, [], r, reason);
    case FlushChunk(at) => SenderKeepsChannels(e, at, []);
    case WriteBytes(at, buf) => SenderKeepsChannels(e, at, buf);
    case CloseChannel(at) => SenderKeepsChannels(e, at, []);
    case LoseSender(at) => SenderKeepsChannels(e, at, []);
    case LoseReceiver(at) => ReceiverKeepsChannels(e, at, 0);
    case PullChunk(at, ff, fb) => PullKeepsChannels(e, at, ff, fb);
    case ReadBytes(at, room) => ReceiverKeepsChannels(e, at, room);
    case _ => OthersKeepChannels(e, v);
  }

  lemma ReceivingIs(e: State, f: Frame)
    requires e.limits.Valid()
    ensures Receiving(e, f) == e.(closing := true) || Receiving(e, f) == Handle(e, f).0.(closing := Receiving(e, f).closing)
  {
    hide Handle, FrameLength;
  }

  lemma HandleFaithful(p: Side, q: Side, id: Id, read: Bytes, written: Bytes)
    requires PairInv(p, q) && p.e.limits.Valid() && q.wire != [] && Faithful(p, id, read, written)
    ensures Faithful(p.(e := Handle(p.e, q.wire[0]).0), id, read, written)
  {
    var f := q.wire[0];
    ChannelIdUsed(p, q, id);
    if f.Accept? { ChannelIdUsed(p, q, f.receiver); }
    HandleSilent(p.e, f, id);
    HandleKeepsChannels(p.e, f);
    SilentIs(p.e, Handle(p.e, f).0, id);
    NothingAdded(read);
    NothingAdded(written);
    hide PairInv, Handle, Silent, Recorded, Faithful;
    FaithfulStep(p, p.(e := Handle(p.e, f).0), id, [], [], read, written);
  }

  lemma DeliverFaithful(p: Side, q: Side, id: Id, read: Bytes, written: Bytes)
    requires PairInv(p, q) && p.e.limits.Valid() && Faithful(p, id, read, written)
    ensures Faithful(DeliverStep(p, q).0, id, read, written)
  {
    hide PairInv, Handle, Faithful, Receiving;
    if q.wire != [] {
      HandleFaithful(p, q, id, read, written);
      ReceivingIs(p.e, q.wire[0]);
      var after := if Receiving(p.e, q.wire[0]) == p.e.(closing := true) then p else p.(e := Handle(p.e, q.wire[0]).0);
      SameFaithful(after, DeliverStep(p, q).0, id, read, written);
    }
  }

  lemma HandleKeepsChannels(e: State, f: Frame)
    requires e.limits.Valid()
    ensures e.channels.Keys <= Handle(e, f).0.channels.Keys
  {
  }

  /** What is faithful does not depend on queues, wires and the closing flag. */
  lemma SameFaithful(p: Side, p': Side, id: Id, read: Bytes, written: Bytes)
    requires Faithful(p, id, read, written) && p'.graves == p.graves && (forall x :: x in p.peers ==> x in p'.peers)
    requires p'.e == p.e.(queue := p'.e.queue, closing := p'.e.closing)
    ensures Faithful(p', id, read, written)
  {
  }

  lemma ActFaithful(p: Side, q: Side, action: Action, id: Id, read: Bytes, written: Bytes)
    requires PairInv(p, q) && Up(p, q) && p.e.limits.Valid() && Faithful(p, id, read, written)
    ensures Faithful(Act(p, q, action).0, id,
                     read + (if action.Local? then ReadBy(p.e, action.v, id) else []),
                     written + if action.Local? then WrittenBy(p.e, action.v, id) else [])
  {
    NothingAdded(read);
    NothingAdded(written);
    hide PairInv, LocalStep, DeliverStep, Faithful, ReadBy, WrittenBy;
    match action
    case Local(v) => LocalFaithful(p, q, v, id, read, written);
    case Transmit => SameFaithful(p, TransmitStep(p), id, read, written);
    case Deliver => DeliverFaithful(p, q, id, read, written);
  }

  /** The other side's steps only add counterparts. */
  lemma OtherFaithful(p: Side, q: Side, action: Action, id: Id, read: Bytes, written: Bytes)
    requires p.e.limits.Valid() && Faithful(q, id, read, written)
    ensures Faithful(Act(p, q, action).1, id, read, written)
  {
    hide Faithful, Perform, Receiving;
    SameFaithful(q, Act(p, q, action).1, id, read, written);
  }

  lemma {:induction false} RunFaithful(a: Limits, b: Limits, ms: seq<Move>, side: bool, id: Id)
    requires a.Valid() && b.Valid() && Multiplex.Open(Multiplex.Run(a, b, ms))
    ensures Faithful(Mine(Multiplex.Run(a, b, ms), side), id, AllRead(a, b, ms, side, id), AllWritten(a, b, ms, side, id))
    decreases |ms|
  {
    hide PairInv, Act, ReadBy, WrittenBy, Multiplex.Run, Faithful;
    if ms == [] {
      StartFaithful(a, b, side, id);
    } else {
      var before, m := ms[..|ms| - 1], ms[|ms| - 1];
      var s := Multiplex.Run(a, b, before);
      RunStep(a, b, ms);
      RunInv(a, b, before);
      StepKeeps(s, m);
      RunFaithful(a, b, before, side, id);
      Swap(s.a, s.b);
      var read, written := AllRead(a, b, before, side, id), AllWritten(a, b, before, side, id);
      NothingAdded(read);
      NothingAdded(written);
      if m.byA == side {
        ActFaithful(Mine(s, side), Theirs(s, side), m.action, id, read, written);
      } else {
        OtherFaithful(Theirs(s, side), Mine(s, side), m.action, id, read, written);
      }
    }
  }

  lemma StartFaithful(a: Limits, b: Limits, side: bool, id: Id)
    requires a.Valid() && b.Valid()
    ensures Faithful(Mine(Multiplex.Run(a, b, []), side), id, [], [])
  {
  }

  // ---------- The stream between the two callers ----------

  /** Until the reader is dropped, what writes reported to have taken is what reads handed out, then the
      rest of the partly read chunk, the buffer, the data under way and the pending chunk. */
  lemma StreamObserved(a: Limits, b: Limits, ms: seq<Move>, side: bool, z: Id)
    requires a.Valid() && b.Valid() && Multiplex.Open(Multiplex.Run(a, b, ms))
    requires Connected(Mine(Multiplex.Run(a, b, ms), side), Theirs(Multiplex.Run(a, b, ms), side), z)
    ensures var s := Multiplex.Run(a, b, ms);
            var p, q := Mine(s, side), Theirs(s, side);
            var w := p.e.channels[z].remote;
            var snd, rcv := p.e.channels[z].sender, q.e.channels[w].receiver;
            !rcv.dropped ==>
              AllWritten(a, b, ms, side, z)
              == AllRead(a, b, ms, !side, w) + Remainder(rcv) + Concat(rcv.buffer) + UnderWay(p, z).payload + Unsent(snd)
  {
    hide Multiplex.Run, AllRead, AllWritten, Concat, UnderWay;
    ReliableStream(a, b, ms, side, z);
    var s := Multiplex.Run(a, b, ms);
    RunFaithful(a, b, ms, side, z);
    RunFaithful(a, b, ms, !side, Mine(s, side).e.channels[z].remote);
    assert Mine(s, !side) == Theirs(s, side);
  }

  /** While the reader is alive, what it was handed is a prefix of what the writer was told, also after
      the writer's channel was cleaned up. */
  lemma PrefixWhileAlive(p: Side, q: Side, z: Id, w: Id, read: Bytes, otherRead: Bytes, written: Bytes, otherWritten: Bytes)
    requires LinkInv(ViewOf(p, q, z)) && ViewOf(p, q, z).near.peer == Some(w) && ReceiverLive(q.e, w)
    requires Faithful(q, w, read, otherWritten) && Faithful(p, z, otherRead, written)
    ensures read <= written
  {
    var v := ViewOf(p, q, z);
    DirectionOf(v);
    hide Select, Pipe, Awaiting, FindTombstone, CountTombstones, Conserved, Ended, HalvesInv, Concat;
    assert v.far.rcv == Some(q.e.channels[w].receiver);
    StreamPrefix(v.near, v.far, Total(v.outbound));
    hide Streamed, Total;
  }

  lemma StreamPrefix(n: Near, far: Far, out: Load)
    requires Streamed(SenderOf(n), far, out) && far.rcv.Some? && !far.rcv.value.dropped
    ensures if SenderOf(n).Some? then far.rcv.value.taken <= SenderOf(n).value.accepted else far.rcv.value.taken == []
  {
    hide Concat, NoEmptyChunks;
  }

  /** A step hands out bytes only to a reader that is alive before and after it. */
  lemma ReadingIsAlive(p: Side, q: Side, action: Action, id: Id)
    requires p.e.limits.Valid() && Up(p, q) && action.Local? && ReadBy(p.e, action.v, id) != []
    ensures ReceiverLive(Act(p, q, action).0.e, id)
  {
    var v := action.v;
    var r := p.e.channels[id].receiver;
    if r.partial.Some? { TakeHandsOut(r, v.room); }
    Performs(p.e, v);
    hide Take, Perform;
  }

  lemma NothingRead(s: System, m: Move, side: bool, id: Id)
    requires ValidLimits(s) && Multiplex.Open(s) && !ReceiverLive(Mine(Multiplex.Step(s, m), side).e, id)
    ensures m.byA == side && m.action.Local? ==> ReadBy(Mine(s, side).e, m.action.v, id) == []
  {
    hide Act, ReadBy, ReceiverLive;
    if m.byA == side && m.action.Local? && ReadBy(Mine(s, side).e, m.action.v, id) != [] {
      ReadingIsAlive(Mine(s, side), Theirs(s, side), m.action, id);
    }
  }

  /** Counterparts stay what they are. */
  lemma PeersOf(p: Side, q: Side, v: Event)
    requires p.e.limits.Valid()
    requires v.AcceptHeld? && v.r !in p.e.held ==> Perform(p.e, v) == p.e
    ensures var (p', q') := LocalStep(p, q, v);
            || (p'.peers == p.peers && q'.peers == q.peers)
            || (v.AcceptHeld? && v.r in p.e.held && p'.peers == p.peers[p.e.nextId := v.r.remote] && q'.peers == q.peers[v.r.remote := p.e.nextId])
  {
    hide Perform;
  }

  lemma LocalPeers(p: Side, q: Side, v: Event)
    requires PairInv(p, q) && p.e.limits.Valid()
    ensures var (p', q') := LocalStep(p, q, v);
            && (forall x :: x in p.peers ==> x in p'.peers && p'.peers[x] == p.peers[x])
            && (forall y :: y in q.peers ==> y in q'.peers && q'.peers[y] == q.peers[y])
  {
    hide PairInv, Perform, LocalStep;
    FreshPeer(p, q);
    AcceptNothingIf(p.e, v);
    PeersOf(p, q, v);
    if v.AcceptHeld? && v.r in p.e.held { NewPeer(p, q, v.r); }
  }

  lemma NewPeer(p: Side, q: Side, r: Incoming)
    requires PairInv(p, q) && r in p.e.held
    ensures r.remote !in q.peers
  {
    HeldFacts(p, q, r);
    hide PairInv, Select, Pipe, LinkInv, ViewOf;
  }

  lemma AcceptNothingIf(e: State, v: Event)
    requires e.limits.Valid()
    ensures v.AcceptHeld? && v.r !in e.held ==> Perform(e, v) == e
  {
    if v.AcceptHeld? { AcceptNothing(e, v.r); Performs(e, v); }
    hide Perform, AcceptChannel;
  }

  lemma FreshPeer(p: Side, q: Side)
    requires PairInv(p, q)
    ensures p.e.nextId !in p.peers
  {
    LinkOf(p, q, p.e.nextId);
    hide PairInv, Select, Pipe, FarOf, DirectionInv, Matched, CountTombstones, Awaiting, Total;
  }

  lemma ActPeers(p: Side, q: Side, action: Action)
    requires PairInv(p, q) && p.e.limits.Valid()
    ensures var (p', q') := Act(p, q, action);
            && (forall x :: x in p.peers ==> x in p'.peers && p'.peers[x] == p.peers[x])
            && (forall y :: y in q.peers ==> y in q'.peers && q'.peers[y] == q.peers[y])
  {
    if action.Local? { LocalPeers(p, q, action.v); }
    hide PairInv, LocalStep, Receiving, PopQueue;
  }

  lemma StepPeers(s: System, m: Move, side: bool)
    requires ValidLimits(s) && PairInv(s.a, s.b)
    ensures var t := Multiplex.Step(s, m);
            forall x :: x in Mine(s, side).peers ==> x in Mine(t, side).peers && Mine(t, side).peers[x] == Mine(s, side).peers[x]
    ensures var t := Multiplex.Step(s, m);
            forall x :: x in Theirs(s, side).peers ==> x in Theirs(t, side).peers && Theirs(t, side).peers[x] == Theirs(s, side).peers[x]
  {
    hide PairInv, Act;
    Swap(s.a, s.b);
    if m.byA { ActPeers(s.a, s.b, m.action); } else { ActPeers(s.b, s.a, m.action); }
  }

  /** Before the two ids were joined nothing was read. */
  lemma NeverRead(p0: Side, q0: Side, p: Side, q: Side, z: Id, w: Id, read: Bytes, written: Bytes)
    requires PairInv(p0, q0) && z !in p0.peers && Faithful(q0, w, read, written)
    requires w in q.peers && q.peers[w] == z
    requires forall y :: y in q0.peers ==> y in q.peers && q.peers[y] == q0.peers[y]
    ensures read == []
  {
    if w in q0.peers { Swap(p0, q0); MirrorFacts(q0, p0, w); }
    hide PairInv, LinkInv, ViewOf;
  }

  lemma LongerRun(a: Limits, b: Limits, ms: seq<Move>, side: bool, z: Id, w: Id)
    requires a.Valid() && b.Valid() && ms != []
    requires var before, m := ms[..|ms| - 1], ms[|ms| - 1];
             && AllRead(a, b, before, !side, w) <= AllWritten(a, b, before, side, z)
             && (m.byA == !side && m.action.Local? ==> ReadBy(Mine(Multiplex.Run(a, b, before), !side).e, m.action.v, w) == [])
    ensures AllRead(a, b, ms, !side, w) <= AllWritten(a, b, ms, side, z)
  {
    hide ReadBy, WrittenBy, Multiplex.Run;
    NothingAdded(AllRead(a, b, ms[..|ms| - 1], !side, w));
  }

  /** In every run, whatever was dropped or cleaned up by now: what reads of a channel handed out is a
      prefix of what writes to its counterpart reported to have taken. */
  lemma {:induction false} ReadsArePrefix(a: Limits, b: Limits, ms: seq<Move>, side: bool, z: Id)
    requires a.Valid() && b.Valid() && Multiplex.Open(Multiplex.Run(a, b, ms)) && z in Mine(Multiplex.Run(a, b, ms), side).peers
    ensures var w := Mine(Multiplex.Run(a, b, ms), side).peers[z];
            AllRead(a, b, ms, !side, w) <= AllWritten(a, b, ms, side, z)
    decreases |ms|
  {
    hide PairInv, Act, ReadBy, WrittenBy, Multiplex.Run, Faithful, LinkInv, ViewOf, ReceiverLive;
    SideInv(a, b, ms, side);
    var s := Multiplex.Run(a, b, ms);
    var p, q := Mine(s, side), Theirs(s, side);
    var w := p.peers[z];
    RunFaithful(a, b, ms, side, z);
    RunFaithful(a, b, ms, !side, w);
    if ReceiverLive(q.e, w) {
      MirrorFacts(p, q, z);
      PrefixWhileAlive(p, q, z, w, AllRead(a, b, ms, !side, w), AllRead(a, b, ms, side, z),
                       AllWritten(a, b, ms, side, z), AllWritten(a, b, ms, !side, w));
    } else if ms != [] {
      var before, m := ms[..|ms| - 1], ms[|ms| - 1];
      var s0 := Multiplex.Run(a, b, before);
      RunStep(a, b, ms);
      RunInv(a, b, before);
      StepKeeps(s0, m);
      SideInv(a, b, before, side);
      var p0, q0 := Mine(s0, side), Theirs(s0, side);
      NothingRead(s0, m, !side, w);
      StepPeers(s0, m, side);
      MirrorFacts(p, q, z);
      NothingAdded(AllRead(a, b, before, !side, w));
      if z in p0.peers {
        ReadsArePrefix(a, b, before, side, z);
      } else {
        RunFaithful(a, b, before, !side, w);
        NeverRead(p0, q0, p, q, z, w, AllRead(a, b, before, !side, w), AllWritten(a, b, before, !side, w));
      }
      LongerRun(a, b, ms, side, z, w);
    }
  }
}
