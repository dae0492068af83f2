/** Runs in which neither side sends a text that is too long for the other, and what can still end
    their connection. */
module Courtesy {
  import opened Wrappers
  import opened FrameCodec
  import opened ConnectionLimits
  import opened OutgoingQueue
  import opened ReceiveWindow
  import opened Endpoint
  import opened EndpointSafety
  import opened Pipes
  import opened System
  import opened SystemSteps
  import opened Multiplex
  import opened Endings

  /** The longest of the fixed texts an endpoint sends on its own. */
  const LONGEST_TEXT: nat := 32

  /** A frame within the given size, with a text within the given length unless it names an endpoint. */
  predicate Mild(f: Frame, size: nat, text: nat) {
    FrameLength(f) <= size && (ControlPayload(f) <= text || f.Request?) && !f.ConnectionClose?
  }

  ghost predicate AllMild(fs: seq<Frame>, size: nat, text: nat) {
    forall i :: 0 <= i < |fs| ==> Mild(fs[i], size, text)
  }

  /** What the caller controls: the reason of a rejection. */
  predicate Polite(v: Event, text: nat) { v.RejectHeld? ==> |v.reason| <= text }

  // ---------- Each operation queues only such frames ----------

  ghost predicate QueueMild(e: State, text: nat) { AllMild(e.queue.frames, e.limits.maxFrameSize, text) }

  /** Everything but the size, which the queue checks itself. */
  predicate Short(f: Frame, text: nat) { (ControlPayload(f) <= text || f.Request?) && !f.ConnectionClose? }

  lemma SendMild(e: State, f: Frame, text: nat)
    requires e.limits.Valid() && QueueMild(e, text) && Short(f, text)
    ensures QueueMild(Send(e, f), text) && QueueMild(SendPriority(e, f), text)
  {
    hide FrameLength, ControlPayload;
  }

  lemma TextLengths()
    ensures |LimitReason()| == LONGEST_TEXT && |CancelReason()| <= LONGEST_TEXT && |Ascii("channel endpoint too large")| <= LONGEST_TEXT
  {
  }

  lemma OpenMild(e: State, endpoint: Bytes, text: nat)
    requires e.limits.Valid() && QueueMild(e, text)
    ensures QueueMild(OpenChannel(e, endpoint), text)
  {
    hide Send, QueueMild;
    var f := Request(e.nextId, INITIAL_FRAME_CREDIT, INITIAL_BYTE_CREDIT, endpoint);
    SameQueue(e, e.(nextId := e.nextId + 1), text);
    SendMild(e.(nextId := e.nextId + 1), f, text);
    var e' := Send(e.(nextId := e.nextId + 1), f);
    SameQueue(e', e'.(pending := e'.pending[e.nextId := false]), text);
  }

  lemma SameQueue(e: State, e': State, text: nat)
    requires QueueMild(e, text) && e'.queue == e.queue && e'.limits == e.limits
    ensures QueueMild(e', text)
  {
  }

  lemma AnswerMild(e: State, r: Incoming, reason: Bytes, text: nat)
    requires e.limits.Valid() && QueueMild(e, text) && LONGEST_TEXT <= text && |reason| <= text
    ensures QueueMild(AcceptChannel(e, r), text) && QueueMild(RejectIncoming(e, r, reason), text)
  {
    TextLengths();
    hide Send, QueueMild, NewChannel, LimitReason;
    var e1 := e.(held := e.held - multiset{r});
    var e2 := e1.(nextId := e.nextId + 1);
    SameQueue(e, e1, text);
    SameQueue(e, e2, text);
    SendMild(e1, Reject(r.remote, LimitReason()), text);
    SendMild(e1, Reject(r.remote, reason), text);
    SendMild(e2, Accept(r.remote, e.nextId, INITIAL_FRAME_CREDIT, INITIAL_BYTE_CREDIT), text);
    var e3 := Send(e2, Accept(r.remote, e.nextId, INITIAL_FRAME_CREDIT, INITIAL_BYTE_CREDIT));
    SameQueue(e3, e3.(channels := AcceptChannel(e, r).channels), text);
  }

  lemma FlushMild(e: State, id: Id, text: nat)
    requires e.limits.Valid() && QueueMild(e, text)
    ensures QueueMild(Flush(e, id).0, text)
  {
    hide FrameLength, ChunkSent;
  }

  lemma EndSenderMild(e: State, id: Id, text: nat)
    requires e.limits.Valid() && QueueMild(e, text)
    ensures QueueMild(FinishClose(e, id), text) && QueueMild(DropSender(e, id), text)
  {
    hide Send;
    if id in e.channels { SendMild(e, Closed(e.channels[id].remote, []), text); }
    hide AllMild;
  }

  lemma EndReceiverMild(e: State, id: Id, text: nat)
    requires e.limits.Valid() && QueueMild(e, text)
    ensures QueueMild(DropReceiver(e, id), text)
  {
    hide Send;
    if id in e.channels { SendMild(e, Close(e.channels[id].remote, []), text); }
    hide AllMild;
  }

  lemma PullMild(e: State, id: Id, ff: bool, fb: bool, text: nat)
    requires e.limits.Valid() && QueueMild(e, text)
    ensures QueueMild(NextChunk(e, id, ff, fb), text)
  {
    hide Send, Consume, Returned;
    if ReceiverLive(e, id) && e.channels[id].receiver.buffer != [] {
      var add := Consume(e.channels[id].receiver, ff, fb).1;
      if add.Some? { SendMild(e, Adjust(e.channels[id].remote, add.value.frames, add.value.bytes), text); }
    }
    hide AllMild;
  }

  lemma OtherMild(e: State, v: Event, text: nat)
    requires e.limits.Valid() && QueueMild(e, text)
    requires v.Cancel? || v.Cleanup? || v.WriteBytes? || v.ReadBytes? || v.CleanupClosed? || v.Evict? || v.Terminate?
    ensures QueueMild(Perform(e, v), text)
  {
    hide AllMild, WriteChunk, Take;
  }

  lemma PerformMild(e: State, v: Event, text: nat)
    requires e.limits.Valid() && QueueMild(e, text) && LONGEST_TEXT <= text && Polite(v, text) && !v.Receive? && !v.PopFrame?
    ensures QueueMild(Perform(e, v), text)
  {
    assert v.RejectHeld? ==> |v.reason| <= text;
    assert Short(Ping, text);
    hide *;
    Performs(e, v);
    match v
    case Open(endpoint) => OpenMild(e, endpoint, text);
    case AcceptHeld(r) => AnswerMild(e, r, [], text);
    case RejectHeld(r, reason) => AnswerMild(e, r, reason, text);
    case FlushChunk(id) => FlushMild(e, id, text);
    case CloseChannel(id) => EndSenderMild(e, id, text);
    case LoseSender(id) => EndSenderMild(e, id, text);
    case LoseReceiver(id) => EndReceiverMild(e, id, text);
    case PullChunk(id, ff, fb) => PullMild(e, id, ff, fb, text);
    case SendPing => if e.helloReceived { SendMild(e, Ping, text); }
    case _ => OtherMild(e, v, text);
  }

  lemma HandleMild(e: State, f: Frame, text: nat)
    requires e.limits.Valid() && QueueMild(e, text) && LONGEST_TEXT <= text
    ensures QueueMild(Handle(e, f).0, text)
  {
    TextLengths();
    hide Send, SendPriority, QueueMild, LimitReason, CancelReason, Ascii, HandleAccept, HandleReject, HandleData, HandleAdjust, HandleClose, HandleClosed;
    match f
    case Request(sender, _, _, _) =>
      SendMild(e, Reject(sender, Ascii("channel endpoint too large")), text);
      SendMild(e, Reject(sender, LimitReason()), text);
      SameQueue(e, e.(held := Handle(e, f).0.held), text);
    case Accept(_, _, _, _) => AcceptMild(e, f, text);
    case Ping => SendMild(e, Pong, text);
    case _ => PlainMild(e, f, text);
  }

  lemma AcceptMild(e: State, f: Frame, text: nat)
    requires e.limits.Valid() && QueueMild(e, text) && LONGEST_TEXT <= text && f.Accept?
    ensures QueueMild(HandleAccept(e, f).0, text)
  {
    TextLengths();
    SendLimits();
    hide Send, AllMild, CancelReason, NewChannel, Without;
    var e1 := e.(cancelled := Without(e.cancelled, f.receiver));
    SendMild(e1, Close(f.sender, CancelReason()), text);
    SendMild(Send(e1, Close(f.sender, CancelReason())), Closed(f.sender, CancelReason()), text);
  }

  lemma PlainMild(e: State, f: Frame, text: nat)
    requires e.limits.Valid() && QueueMild(e, text) && !f.Request? && !f.Accept? && !f.Ping?
    ensures QueueMild(Handle(e, f).0, text)
  {
    hide AllMild, Store, SpendTombstone, FindTombstone, Without;
  }

  // ---------- Both sides ----------

  ghost predicate SideMild(p: Side, q: Side) { AllMild(Pipe(p), p.e.limits.maxFrameSize, q.e.limits.maxControlPayload) }

  ghost predicate PairMild(p: Side, q: Side) {
    && SideMild(p, q) && SideMild(q, p)
    && LONGEST_TEXT <= p.e.limits.maxControlPayload && LONGEST_TEXT <= q.e.limits.maxControlPayload
  }

  lemma PipeMild(p: Side, p': Side, size: nat, text: nat)
    requires AllMild(Pipe(p), size, text) && p'.wire == p.wire && AllMild(p'.e.queue.frames, size, text)
    ensures AllMild(Pipe(p'), size, text)
  {
    hide Mild;
    forall i | 0 <= i < |Pipe(p')| ensures Mild(Pipe(p')[i], size, text) {
      if i < |p.wire| {
        assert Pipe(p)[i] == p.wire[i];
      }
    }
  }

  lemma QueueOfPipe(p: Side, size: nat, text: nat)
    requires AllMild(Pipe(p), size, text)
    ensures AllMild(p.e.queue.frames, size, text)
  {
    hide Mild;
    forall i | 0 <= i < |p.e.queue.frames| ensures Mild(p.e.queue.frames[i], size, text) {
      assert Pipe(p)[|p.wire| + i] == p.e.queue.frames[i];
    }
  }

  lemma LocalMild(p: Side, q: Side, v: Event)
    requires p.e.limits.Valid() && PairMild(p, q) && Polite(v, q.e.limits.maxControlPayload)
    ensures var (p', q') := LocalStep(p, q, v); PairMild(p', q')
  {
    hide Perform, AllMild, Polite;
    if !v.Receive? && !v.PopFrame? {
      var size, text := p.e.limits.maxFrameSize, q.e.limits.maxControlPayload;
      QueueOfPipe(p, size, text);
      PerformMild(p.e, v, text);
      LimitsFixed(p.e, v);
      PipeMild(p, p.(e := Perform(p.e, v)), size, text);
      hide Pipe;
      var (p', q') := LocalStep(p, q, v);
      assert Pipe(p') == Pipe(p.(e := Perform(p.e, v))) && Pipe(q') == Pipe(q) by { SamePipe(p', p.(e := Perform(p.e, v))); SamePipe(q', q); }
    }
  }

  lemma SamePipe(p: Side, p': Side)
    requires p'.e == p.e && p'.wire == p.wire
    ensures Pipe(p') == Pipe(p)
  {
  }

  lemma TransmitMild(p: Side, q: Side)
    requires PairMild(p, q)
    ensures PairMild(TransmitStep(p), q)
  {
    hide Mild, FrameLength;
    var p' := TransmitStep(p);
    if p.e.queue.frames != [] {
      assert p.e.queue.frames == [p.e.queue.frames[0]] + p.e.queue.frames[1..];
      assert Pipe(p') == Pipe(p);
    }
  }

  lemma DeliverMild(p: Side, q: Side)
    requires p.e.limits.Valid() && PairMild(p, q)
    ensures var (p', q') := DeliverStep(p, q); PairMild(p', q')
  {
    hide Handle, Mild;
    if q.wire != [] {
      var size, text := p.e.limits.maxFrameSize, q.e.limits.maxControlPayload;
      QueueOfPipe(p, size, text);
      HandleMild(p.e, q.wire[0], text);
      HandleLimits(p.e, q.wire[0]);
      PipeMild(p, p.(e := Receiving(p.e, q.wire[0])), size, text);
      assert Pipe(q.(wire := q.wire[1..])) == Pipe(q)[1..];
    }
  }

  lemma ActMild(p: Side, q: Side, action: Action)
    requires p.e.limits.Valid() && PairMild(p, q) && (action.Local? ==> Polite(action.v, q.e.limits.maxControlPayload))
    ensures var (p', q') := Act(p, q, action); PairMild(p', q')
  {
    hide LocalStep, TransmitStep, DeliverStep, PairMild, Polite;
    match action
    case Local(v) => LocalMild(p, q, v);
    case Transmit => TransmitMild(p, q);
    case Deliver => DeliverMild(p, q);
  }

  // ---------- In every polite run ----------

  predicate PoliteMove(a: Limits, b: Limits, m: Move) {
    m.action.Local? ==> Polite(m.action.v, (if m.byA then b else a).maxControlPayload)
  }

  lemma {:induction false} RunMild(a: Limits, b: Limits, ms: seq<Move>)
    requires a.Valid() && b.Valid() && LONGEST_TEXT <= a.maxControlPayload && LONGEST_TEXT <= b.maxControlPayload
    requires forall i :: 0 <= i < |ms| ==> PoliteMove(a, b, ms[i])
    ensures var s := Multiplex.Run(a, b, ms); PairMild(s.a, s.b) && s.a.e.limits == a && s.b.e.limits == b
    decreases |ms|
  {
    if ms == [] {
      StartMild(a, b);
    } else {
      RunMild(a, b, ms[..|ms| - 1]);
      var s, m := Multiplex.Run(a, b, ms[..|ms| - 1]), ms[|ms| - 1];
      assert PoliteMove(a, b, m);
      hide Act, SideMild, Multiplex.Run;
      assert Multiplex.Run(a, b, ms) == Multiplex.Step(s, m) by { RunStep(a, b, ms); }
      if m.byA {
        ActLimits(s.a, s.b, m.action);
        ActMild(s.a, s.b, m.action);
      } else {
        ActLimits(s.b, s.a, m.action);
        ActMild(s.b, s.a, m.action);
      }
    }
  }

  lemma StartMild(a: Limits, b: Limits)
    requires a.Valid() && b.Valid() && LONGEST_TEXT <= a.maxControlPayload && LONGEST_TEXT <= b.maxControlPayload
    ensures PairMild(Multiplex.Start(a, b).a, Multiplex.Start(a, b).b)
  {
    assert FrameLength(HelloFrame()) == 17;
    assert [] + Initial().queue.frames == [HelloFrame()];
  }

  /** Between sides that allow the same frame size and read the fixed texts, and whose callers give no
      longer reason for a rejection than the other side reads, a frame that arrives ends the connection
      exactly if the answer it asks for does not fit the queue. */
  lemma PoliteRuns(a: Limits, b: Limits, ms: seq<Move>, side: bool)
    requires a.Valid() && b.Valid() && a.maxFrameSize == b.maxFrameSize
    requires LONGEST_TEXT <= a.maxControlPayload && LONGEST_TEXT <= b.maxControlPayload
    requires forall i :: 0 <= i < |ms| ==> PoliteMove(a, b, ms[i])
    requires Multiplex.Open(Multiplex.Run(a, b, ms)) && Theirs(Multiplex.Run(a, b, ms), side).wire != []
    ensures var s := Multiplex.Run(a, b, ms);
            var p, f := Mine(s, side), Theirs(s, side).wire[0];
            && FrameLength(f) <= p.e.limits.maxFrameSize && !TooLong(p.e.limits, f) && !f.ConnectionClose?
            && (!Multiplex.Open(Multiplex.Step(s, Move(side, Deliver))) <==> !HasRoom(p.e, Answered(p.e, f)))
  {
    hide Multiplex.Run, Multiplex.Step, HasRoom, Answered, Multiplex.Open, FrameLength;
    RunMild(a, b, ms);
    ConnectionEnds(a, b, ms, Move(side, Deliver));
    var s := Multiplex.Run(a, b, ms);
    var q := Theirs(s, side);
    assert Pipe(q)[0] == q.wire[0];
    assert Mild(q.wire[0], q.e.limits.maxFrameSize, Mine(s, side).e.limits.maxControlPayload);
  }
}
