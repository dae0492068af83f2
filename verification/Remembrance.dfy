/** A side knows every channel of its own until it evicts the channel's tombstone. */
module Remembrance {
  import opened Wrappers
  import opened FrameCodec
  import opened ConnectionLimits
  import opened OutgoingQueue
  import opened ReceiveWindow
  import opened Endpoint
  import opened EndpointSafety
  import opened Link
  import opened Pipes
  import opened System
  import opened SystemSteps
  import opened SystemDelivery
  import opened SystemOpening
  import opened SystemLocal
  import opened SystemRuns
  import opened Multiplex

  /** The id has a channel, an open that awaits its answer, or a tombstone. */
  predicate Known(e: State, id: Id) {
    id in e.channels || Awaiting(e, id) > 0 || FindTombstone(e.tombstones, id).Some?
  }

  /** Every id whose channel the peer accepted is known. */
  ghost predicate Remembers(p: Side) { forall id :: id in p.peers ==> Known(p.e, id) }

  /** This move drops the oldest tombstone of the side that makes it. */
  predicate Evicts(s: System, m: Move) {
    var e := Mine(s, m.byA).e;
    m.action == Local(Evict) && |e.tombstones| > e.limits.maxTombstones
  }

  // ---------- One endpoint ----------

  lemma {:induction false} FindAppended(ts: seq<Tombstone>, t: Tombstone, id: Id)
    ensures FindTombstone(ts + [t], id) ==
            if FindTombstone(ts, id).Some? then FindTombstone(ts, id) else if t.id == id then Some(t.credit) else None
  {
    if ts == [] {
      assert ts + [t] == [t] && [t][1..] == [];
    } else {
      assert (ts + [t])[1..] == ts[1..] + [t];
      FindAppended(ts[1..], t, id);
    }
  }

  lemma {:induction false} FindSpent(ts: seq<Tombstone>, spent: Id, bytes: nat, id: Id)
    requires FindTombstone(ts, spent).Some? && 0 < FindTombstone(ts, spent).value.frames && bytes <= FindTombstone(ts, spent).value.bytes
    ensures FindTombstone(SpendTombstone(ts, spent, bytes), id).Some? == FindTombstone(ts, id).Some?
  {
    var after := SpendTombstone(ts, spent, bytes);
    if ts[0].id == spent {
      assert after[1..] == ts[1..];
    } else {
      FindSpent(ts[1..], spent, bytes, id);
      assert after[1..] == SpendTombstone(ts[1..], spent, bytes);
    }
  }

  lemma {:induction false} WithoutOthers(ids: seq<Id>, gone: Id, id: Id)
    requires id != gone
    ensures multiset(Without(ids, gone))[id] == multiset(ids)[id]
  {
    if ids != [] {
      assert ids == [ids[0]] + ids[1..];
      if ids[0] != gone { WithoutOthers(ids[1..], gone, id); }
    }
  }

  /** Only the queue and the closing flag changed. */
  lemma SentKnown(e: State, f: Frame, id: Id)
    requires e.limits.Valid() && Known(e, id)
    ensures Known(Send(e, f), id) && Known(SendPriority(e, f), id)
  {
    hide TryQueue, TryQueuePriority, FindTombstone;
  }

  lemma OpenKnown(e: State, endpoint: Bytes, id: Id)
    requires e.limits.Valid() && Known(e, id)
    ensures Known(OpenChannel(e, endpoint), id)
  {
    hide Send, FindTombstone, OccupiedSlots;
    var e1 := e.(nextId := e.nextId + 1);
    assert Known(e1, id);
    SentKnown(e1, Request(e.nextId, INITIAL_FRAME_CREDIT, INITIAL_BYTE_CREDIT, endpoint), id);
  }

  lemma AnswerKnown(e: State, r: Incoming, reason: Bytes, id: Id)
    requires e.limits.Valid() && Known(e, id)
    ensures Known(AcceptChannel(e, r), id) && Known(RejectIncoming(e, r, reason), id)
  {
    hide Send, FindTombstone, NewChannel, LimitReason, Awaiting;
    var e1 := e.(held := e.held - multiset{r});
    var e2 := e1.(nextId := e.nextId + 1);
    SameAwaited(e, e1, id);
    SameAwaited(e, e2, id);
    SentKnown(e1, Reject(r.remote, LimitReason()), id);
    SentKnown(e1, Reject(r.remote, reason), id);
    var f := Accept(r.remote, e.nextId, INITIAL_FRAME_CREDIT, INITIAL_BYTE_CREDIT);
    SentKnown(e2, f, id);
    var e3 := Send(e2, f);
    SameAwaited(e3, e3.(channels := e3.channels[e.nextId := NewChannel(r.remote, r.credit, e.limits)]), id);
  }

  lemma SameAwaited(e: State, e': State, id: Id)
    requires e'.pending == e.pending && e'.cancelled == e.cancelled
    ensures Awaiting(e', id) == Awaiting(e, id)
  {
  }

  lemma HalvesKnown(e: State, at: Id, buf: Bytes, room: nat, ff: bool, fb: bool, id: Id)
    requires e.limits.Valid() && Known(e, id)
    ensures Known(Write(e, at, buf), id) && Known(Read(e, at, room).0, id) && Known(NextChunk(e, at, ff, fb), id)
  {
    hide FindTombstone, WriteChunk, Take, Awaiting;
    SameAwaited(e, Write(e, at, buf), id);
    SameAwaited(e, Read(e, at, room).0, id);
    hide Write, Read;
    PullKnown(e, at, ff, fb, id);
  }

  lemma PullKnown(e: State, at: Id, ff: bool, fb: bool, id: Id)
    requires e.limits.Valid() && Known(e, id)
    ensures Known(NextChunk(e, at, ff, fb), id)
  {
    hide FindTombstone, Doubled, Growth, Send, Awaiting, Returned;
    SendOnly(e);
    SameAwaited(e, NextChunk(e, at, ff, fb), id);
  }

  lemma EndsKnown(e: State, at: Id, id: Id)
    requires e.limits.Valid() && Known(e, id)
    ensures Known(Flush(e, at).0, id) && Known(FinishClose(e, at), id) && Known(DropSender(e, at), id) && Known(DropReceiver(e, at), id)
  {
    hide FindTombstone, TryQueue, ChunkSent, Send, Awaiting;
    SendOnly(e);
    forall e': State | e'.pending == e.pending && e'.cancelled == e.cancelled ensures Awaiting(e', id) == Awaiting(e, id) { SameAwaited(e, e', id); }
  }

  lemma SendOnly(e: State)
    requires e.limits.Valid()
    ensures forall f :: Send(e, f) == e.(queue := Send(e, f).queue, closing := Send(e, f).closing)
  {
    hide TryQueue;
  }

  lemma CleanupKnown(e: State, at: Id, id: Id)
    requires Known(e, id)
    ensures Known(CancelOpen(e, at), id) && Known(CleanupChannel(e, at), id)
    ensures !CleanupCancelled(e, at).closing ==> Known(CleanupCancelled(e, at), id)
  {
    CancelAwaits(e, at);
    if !CleanupCancelled(e, at).closing { CleanupAwaits(e, at); }
    if at in e.channels { FindAppended(e.tombstones, Tombstone(at, e.channels[at].receiver.credit), id); }
    SameAwaited(e, CleanupChannel(e, at), id);
    hide FindTombstone, Awaiting;
  }

  /** Nothing an endpoint does on its own makes it forget an id, but an eviction. */
  lemma PerformKnown(e: State, v: Event, id: Id)
    requires e.limits.Valid() && Known(e, id) && !Perform(e, v).closing && !v.Receive? && !v.PopFrame?
    requires v.Evict? ==> |e.tombstones| <= e.limits.maxTombstones
    ensures Known(Perform(e, v), id)
  {
    Performs(e, v);
    if v.Evict? || v.Terminate? {
      hide Known;
    } else {
      hide *;
      match v
      case Open(endpoint) => OpenKnown(e, endpoint, id);
      case AcceptHeld(r) => AnswerKnown(e, r, [], id);
      case RejectHeld(r, reason) => AnswerKnown(e, r, reason, id);
      case Cancel(at) => CleanupKnown(e, at, id);
      case Cleanup(at) => CleanupKnown(e, at, id);
      case CleanupClosed(at) => CleanupKnown(e, at, id);
      case FlushChunk(at) => EndsKnown(e, at, id);
      case CloseChannel(at) => EndsKnown(e, at, id);
      case LoseSender(at) => EndsKnown(e, at, id);
      case LoseReceiver(at) => EndsKnown(e, at, id);
      case WriteBytes(at, buf) => HalvesKnown(e, at, buf, 0, false, false, id);
      case ReadBytes(at, room) => HalvesKnown(e, at, [], room, false, false, id);
      case PullChunk(at, ff, fb) => HalvesKnown(e, at, [], 0, ff, fb, id);
      case SendPing => if e.helloReceived { SentKnown(e, Ping, id); }
    }
  }

  lemma AcceptFrameKnown(e: State, f: Frame, id: Id)
    requires e.limits.Valid() && Known(e, id) && f.Accept? && !HandleAccept(e, f).1.Violates? && !HandleAccept(e, f).1.SlotAssertion?
    ensures Known(HandleAccept(e, f).0, id)
  {
    hide FindTombstone, NewChannel, Send, CancelReason, Without;
    if f.receiver in e.pending {
    } else if f.receiver in e.cancelled {
      FindAppended(e.tombstones, Tombstone(f.receiver, INITIAL_CREDITS), id);
      if id != f.receiver { WithoutOthers(e.cancelled, f.receiver, id); }
      var e1 := e.(cancelled := Without(e.cancelled, f.receiver));
      SendOnly(e1);
      SendOnly(Send(e1, Close(f.sender, CancelReason())));
    }
  }

  lemma RejectFrameKnown(e: State, at: Id, id: Id)
    requires Known(e, id) && at != id
    ensures Known(HandleReject(e, at).0, id)
  {
    hide FindTombstone, Without;
    WithoutOthers(e.cancelled, at, id);
  }

  lemma ChannelFrameKnown(e: State, f: Frame, id: Id)
    requires e.limits.Valid() && Known(e, id) && (f.Data? || f.Adjust? || f.Close? || f.Closed?)
    ensures Known(Dispatch(e, f).0, id)
  {
    hide Store, FindTombstone, SpendTombstone, Awaiting;
    forall e': State | e'.pending == e.pending && e'.cancelled == e.cancelled ensures Awaiting(e', id) == Awaiting(e, id) { SameAwaited(e, e', id); }
    if f.Data? && FindTombstone(e.tombstones, f.receiver).Some? {
      var c := FindTombstone(e.tombstones, f.receiver).value;
      if 0 < c.frames && |f.payload| <= c.bytes { FindSpent(e.tombstones, f.receiver, |f.payload|, id); }
    }
  }

  lemma OtherFrameKnown(e: State, f: Frame, id: Id)
    requires e.limits.Valid() && Known(e, id) && (f.Hello? || f.ConnectionClose? || f.Request? || f.Ping? || f.Pong?)
    ensures Known(Dispatch(e, f).0, id)
  {
    hide FindTombstone, Awaiting, Send, SendPriority, LimitReason;
    forall e': State | e'.pending == e.pending && e'.cancelled == e.cancelled ensures Awaiting(e', id) == Awaiting(e, id) { SameAwaited(e, e', id); }
    if f.Request? { SentKnown(e, Reject(f.sender, LimitReason()), id); }
    SentKnown(e, Pong, id);
  }

  lemma HandleKnown(e: State, f: Frame, id: Id)
    requires e.limits.Valid() && Known(e, id) && !(f.Reject? && f.receiver == id)
    requires !Handle(e, f).1.Violates? && !Handle(e, f).1.SlotAssertion?
    ensures Known(Handle(e, f).0, id)
  {
    if f.Request? { SentKnown(e, Reject(f.sender, Ascii("channel endpoint too large")), id); }
    hide Known, Send, Ascii, Dispatch;
    if ControlPayload(f) <= e.limits.maxControlPayload {
      Dispatches(e, f);
      match f
      case Accept(_, _, _, _) => AcceptFrameKnown(e, f, id);
      case Reject(at, _) => RejectFrameKnown(e, at, id);
      case Data(_, _) => ChannelFrameKnown(e, f, id);
      case Adjust(_, _, _) => ChannelFrameKnown(e, f, id);
      case Close(_, _) => ChannelFrameKnown(e, f, id);
      case Closed(_, _) => ChannelFrameKnown(e, f, id);
      case _ => OtherFrameKnown(e, f, id);
    }
  }

  // ---------- Two endpoints ----------

  lemma LocalRemembers(p: Side, q: Side, v: Event)
    requires PairInv(p, q) && Up(p, q) && p.e.limits.Valid() && Remembers(p) && Remembers(q)
    requires v.Evict? ==> |p.e.tombstones| <= p.e.limits.maxTombstones
    requires var (p', q') := LocalStep(p, q, v); Up(p', q')
    ensures var (p', q') := LocalStep(p, q, v); Remembers(p') && Remembers(q')
  {
    hide PairInv, Perform, Known;
    if !v.Receive? && !v.PopFrame? {
      forall id | id in p.peers ensures Known(Perform(p.e, v), id) { PerformKnown(p.e, v, id); }
      if v.AcceptHeld? { AcceptRemembers(p, q, v.r); }
    }
  }

  /** The accepted channel is known here, and its open is still awaited there. */
  lemma AcceptRemembers(p: Side, q: Side, r: Incoming)
    requires PairInv(p, q) && p.e.limits.Valid()
    ensures Perform(p.e, AcceptHeld(r)) == AcceptChannel(p.e, r)
    ensures p.e.nextId in AcceptChannel(p.e, r).channels ==> Known(AcceptChannel(p.e, r), p.e.nextId)
    ensures r in p.e.held ==> Known(q.e, r.remote)
    ensures r !in p.e.held ==> AcceptChannel(p.e, r) == p.e
  {
    Performs(p.e, AcceptHeld(r));
    AcceptNothing(p.e, r);
    hide PairInv, Perform, AcceptChannel, FindTombstone;
    if r in p.e.held {
      HeldFacts(p, q, r);
      HeldAwaited(ViewOf(q, p, r.remote));
      assert Awaiting(q.e, r.remote) > 0 by { NearAwaits(q, r.remote); }
    }
  }

  lemma NearAwaits(p: Side, x: Id)
    ensures NearOf(p, x).awaiting == Awaiting(p.e, x)
  {
    hide Awaiting, CountTombstones;
  }

  lemma HeldAwaited(v: View)
    requires LinkInv(v) && v.heldByPeer > 0
    ensures v.near.awaiting > 0
  {
    hide DirectionInv, Phased, Total;
  }

  lemma DeliverRemembers(p: Side, q: Side)
    requires PairInv(p, q) && Up(p, q) && p.e.limits.Valid() && Remembers(p)
    requires var (p', q') := DeliverStep(p, q); Up(p', q')
    ensures Remembers(DeliverStep(p, q).0)
  {
    hide PairInv, Handle, Known;
    if q.wire != [] {
      var f := q.wire[0];
      if f.Reject? { RejectHead(p, q, f.receiver); }
      forall id | id in p.peers ensures Known(Handle(p.e, f).0, id) { HandleKnown(p.e, f, id); }
    }
  }

  lemma TransmitRemembers(p: Side)
    requires Remembers(p)
    ensures Remembers(TransmitStep(p))
  {
    hide FindTombstone, FrameLength;
  }

  lemma ActRemembers(p: Side, q: Side, action: Action)
    requires PairInv(p, q) && Up(p, q) && p.e.limits.Valid() && Remembers(p) && Remembers(q)
    requires action == Local(Evict) ==> |p.e.tombstones| <= p.e.limits.maxTombstones
    requires var (p', q') := Act(p, q, action); Up(p', q')
    ensures var (p', q') := Act(p, q, action); Remembers(p') && Remembers(q')
  {
    hide PairInv, LocalStep, TransmitStep, Receiving, Known;
    match action
    case Local(v) => LocalRemembers(p, q, v);
    case Transmit => TransmitRemembers(p);
    case Deliver => DeliverRemembers(p, q);
  }

  lemma StepRemembers(s: System, m: Move)
    requires ValidLimits(s) && Multiplex.Open(s) && PairInv(s.a, s.b) && !Evicts(s, m) && Remembers(s.a) && Remembers(s.b)
    requires Multiplex.Open(Multiplex.Step(s, m))
    ensures var t := Multiplex.Step(s, m); Remembers(t.a) && Remembers(t.b)
  {
    hide PairInv, Remembers, Act;
    if m.byA {
      ActRemembers(s.a, s.b, m.action);
    } else {
      Swap(s.a, s.b);
      ActRemembers(s.b, s.a, m.action);
    }
  }

  lemma StartRemembers(a: Limits, b: Limits)
    requires a.Valid() && b.Valid()
    ensures var s := Multiplex.Run(a, b, []); Remembers(s.a) && Remembers(s.b)
  {
  }

  lemma {:induction false} RunRemembers(a: Limits, b: Limits, ms: seq<Move>)
    requires a.Valid() && b.Valid() && Multiplex.Open(Multiplex.Run(a, b, ms))
    requires forall i :: 0 <= i < |ms| ==> !Evicts(Multiplex.Run(a, b, ms[..i]), ms[i])
    ensures var s := Multiplex.Run(a, b, ms); Remembers(s.a) && Remembers(s.b)
    decreases |ms|
  {
    hide PairInv, Remembers, Multiplex.Step, Multiplex.Run, Evicts;
    if ms == [] {
      StartRemembers(a, b);
    } else {
      var before, m := ms[..|ms| - 1], ms[|ms| - 1];
      var s := Multiplex.Run(a, b, before);
      RunStep(a, b, ms);
      RunInv(a, b, before);
      StepKeeps(s, m);
      forall i | 0 <= i < |before| ensures !Evicts(Multiplex.Run(a, b, before[..i]), before[i]) { assert before[..i] == ms[..i]; }
      RunRemembers(a, b, before);
      StepRemembers(s, m);
    }
  }

  /** As long as no tombstone was evicted, every frame from a conforming peer is for a channel that is
      known: it is never counted against the limit on frames for unknown channels. */
  lemma NothingUnknown(a: Limits, b: Limits, ms: seq<Move>, side: bool)
    requires a.Valid() && b.Valid() && Multiplex.Open(Multiplex.Run(a, b, ms)) && Theirs(Multiplex.Run(a, b, ms), side).wire != []
    requires forall i :: 0 <= i < |ms| ==> !Evicts(Multiplex.Run(a, b, ms[..i]), ms[i])
    ensures var s := Multiplex.Run(a, b, ms); !Handle(Mine(s, side).e, Theirs(s, side).wire[0]).1.Unknown?
  {
    RunRemembers(a, b, ms);
    hide PairInv, Multiplex.Run, Handle, FindTombstone, Awaiting;
    ConformingPeer(a, b, ms, side);
  }
}
