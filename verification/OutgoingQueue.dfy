/** Resource limits of a connection, as `with_limits` validates them. */
module ConnectionLimits {
  const INITIAL_FRAME_CREDIT: nat := 128
  const INITIAL_BYTE_CREDIT: nat := 16384
  const DATA_HEADER: nat := 9
  const U32_MAX: nat := 0xFFFF_FFFF

  datatype Limits = Limits(
    maxChannels: nat,
    maxPendingRequests: nat,
    maxQueuedFrames: nat,
    maxQueuedBytes: nat,
    reservedFrames: nat,
    reservedBytes: nat,
    maxFrameSize: nat,
    receiveFrameLimit: nat,
    receiveByteLimit: nat,
    maxTombstones: nat,
    maxControlPayload: nat)
  {
    predicate Valid() {
      && 0 < maxChannels && 0 < maxPendingRequests && 0 < maxQueuedFrames && 0 < maxTombstones
      && reservedFrames < maxQueuedFrames
      && DATA_HEADER + INITIAL_BYTE_CREDIT <= maxFrameSize <= maxQueuedBytes
      && reservedBytes < maxQueuedBytes && maxFrameSize <= maxQueuedBytes - reservedBytes
      && INITIAL_FRAME_CREDIT <= receiveFrameLimit <= U32_MAX
      && INITIAL_BYTE_CREDIT <= receiveByteLimit <= U32_MAX
      && maxControlPayload <= maxFrameSize
    }

    function MaxPayload(): nat
      requires Valid()
    {
      maxFrameSize - DATA_HEADER
    }
  }
}

/** The bounded queue of outgoing frames with its priority lane. */
module OutgoingQueue {
  import opened Wrappers
  import opened FrameCodec
  import opened ConnectionLimits

  datatype Queue = Queue(frames: seq<Frame>, bytes: nat)

  datatype QueueResult = Queued(queue: Queue) | Full | TooLarge

  function TotalLength(fs: seq<Frame>): nat {
    if fs == [] then 0 else FrameLength(fs[0]) + TotalLength(fs[1..])
  }

  lemma {:induction false} TotalLengthConcat(a: seq<Frame>, b: seq<Frame>)
    ensures TotalLength(a + b) == TotalLength(a) + TotalLength(b)
  {
    if a == [] {
      assert a + b == b;
    } else {
      TotalLengthConcat(a[1..], b);
      assert (a + b)[1..] == a[1..] + b;
    }
  }

  /** Data frames may not use the part of the queue reserved for control traffic. */
  function TryQueue(q: Queue, f: Frame, isData: bool, l: Limits): QueueResult
    requires l.Valid()
  {
    var newBytes := q.bytes + FrameLength(f);
    var frameLimit := if isData then l.maxQueuedFrames - l.reservedFrames else l.maxQueuedFrames;
    var byteLimit := if isData then l.maxQueuedBytes - l.reservedBytes else l.maxQueuedBytes;
    if FrameLength(f) > l.maxFrameSize then TooLarge
    else if |q.frames| >= frameLimit || newBytes > byteLimit then Full
    else Queued(Queue(q.frames + [f], newBytes))
  }

  /** A priority frame goes to the front, but never overtakes an unsent Hello. */
  function TryQueuePriority(q: Queue, f: Frame, l: Limits): QueueResult {
    var newBytes := q.bytes + FrameLength(f);
    if FrameLength(f) > l.maxFrameSize then TooLarge
    else if |q.frames| >= l.maxQueuedFrames || newBytes > l.maxQueuedBytes then Full
    else if q.frames != [] && q.frames[0].Hello? then Queued(Queue([q.frames[0], f] + q.frames[1..], newBytes))
    else Queued(Queue([f] + q.frames, newBytes))
  }

  ghost predicate Consistent(q: Queue, l: Limits) {
    q.bytes == TotalLength(q.frames) && q.bytes <= l.maxQueuedBytes && |q.frames| <= l.maxQueuedFrames
  }

  lemma QueueingKeepsBudget(q: Queue, f: Frame, isData: bool, l: Limits)
    requires l.Valid() && Consistent(q, l) && TryQueue(q, f, isData, l).Queued?
    ensures var q' := TryQueue(q, f, isData, l).queue;
            Consistent(q', l)
            && (isData ==> |q'.frames| <= l.maxQueuedFrames - l.reservedFrames
                           && q'.bytes <= l.maxQueuedBytes - l.reservedBytes)
  {
    TotalLengthConcat(q.frames, [f]);
  }

  lemma PriorityKeepsBudget(q: Queue, f: Frame, l: Limits)
    requires Consistent(q, l) && TryQueuePriority(q, f, l).Queued?
    ensures Consistent(TryQueuePriority(q, f, l).queue, l)
  {
    if q.frames != [] && q.frames[0].Hello? {
      TotalLengthConcat([q.frames[0], f], q.frames[1..]);
    } else {
      TotalLengthConcat([f], q.frames);
    }
  }

  /** The queue refuses a frame only for its size or for lack of room, of which data may use less; and
      what it admits goes to the back. */
  lemma AdmittedExactly(q: Queue, f: Frame, isData: bool, l: Limits)
    requires l.Valid()
    ensures var frames := if isData then l.maxQueuedFrames - l.reservedFrames else l.maxQueuedFrames;
            var bytes := if isData then l.maxQueuedBytes - l.reservedBytes else l.maxQueuedBytes;
            var r := TryQueue(q, f, isData, l);
            && (r.Queued? <==> FrameLength(f) <= l.maxFrameSize && |q.frames| + 1 <= frames && q.bytes + FrameLength(f) <= bytes)
            && (r.Queued? ==> |r.queue.frames| == |q.frames| + 1 && r.queue.frames[|q.frames|] == f && r.queue.frames[..|q.frames|] == q.frames)
            && (r.TooLarge? <==> FrameLength(f) > l.maxFrameSize)
  {
    hide FrameLength;
  }

  /** A priority frame leaves before everything that is queued, but an unsent Hello; the rest leaves as
      it would have without it. */
  lemma PriorityFirst(q: Queue, f: Frame, l: Limits)
    requires l.Valid()
    ensures var r := TryQueuePriority(q, f, l);
            && (r.Queued? <==> FrameLength(f) <= l.maxFrameSize && |q.frames| + 1 <= l.maxQueuedFrames
                               && q.bytes + FrameLength(f) <= l.maxQueuedBytes)
            && (r.Queued? ==>
                  var at := if q.frames != [] && q.frames[0].Hello? then 1 else 0;
                  && |r.queue.frames| == |q.frames| + 1 && r.queue.frames[at] == f
                  && r.queue.frames[..at] + r.queue.frames[at + 1..] == q.frames)
  {
    hide FrameLength;
    if q.frames != [] { assert q.frames == [q.frames[0]] + q.frames[1..]; }
  }

  // ---------- Runs of the queue ----------

  datatype Op = PushControl(f: Frame) | PushData(f: Frame) | PushPriority(f: Frame) | PopFront | ClearAll

  /** Queue state with the history of what was accepted into the ordinary lane and what was sent. */
  datatype History = History(queue: Queue, ordinary: seq<Frame>, sent: seq<Frame>, closed: bool)

  function HelloFrame(): Frame { Hello(PROTOCOL_MAGIC, []) }

  const PROTOCOL_MAGIC: Bytes := [27, 27, 46, 134, 44, 205, 244, 157, 82, 109, 227, 13, 167, 171, 225, 140]

  function Initial(): History {
    History(Queue([HelloFrame()], FrameLength(HelloFrame())), [HelloFrame()], [], false)
  }

  predicate IsPriority(f: Frame) { f.Ping? || f.Pong? }

  /** What callers may queue: the Hello is queued once by the constructor, and exactly
      Pings and Pongs use the priority lane. */
  predicate Permitted(op: Op) {
    match op
    case PushControl(f) => !f.Hello? && !f.Data? && !IsPriority(f)
    case PushData(f) => f.Data?
    case PushPriority(f) => IsPriority(f)
    case _ => true
  }

  function Apply(h: History, op: Op, l: Limits): History
    requires l.Valid()
  {
    match op
    case PushControl(f) => if h.closed then h else Push(h, f, TryQueue(h.queue, f, false, l), true)
    case PushData(f) => if h.closed then h else Push(h, f, TryQueue(h.queue, f, true, l), true)
    case PushPriority(f) => if h.closed then h else Push(h, f, TryQueuePriority(h.queue, f, l), false)
    case PopFront =>
      if h.queue.frames == [] || h.queue.bytes < FrameLength(h.queue.frames[0]) then h
      else h.(queue := Queue(h.queue.frames[1..], h.queue.bytes - FrameLength(h.queue.frames[0])),
              sent := h.sent + [h.queue.frames[0]])
    case ClearAll => h.(queue := Queue([], 0), closed := true)
  }

  function Push(h: History, f: Frame, r: QueueResult, ordinary: bool): History {
    if r.Queued? then h.(queue := r.queue, ordinary := if ordinary then h.ordinary + [f] else h.ordinary) else h
  }

  function Run(ops: seq<Op>, l: Limits): History
    requires l.Valid()
  {
    if ops == [] then Initial() else Apply(Run(ops[..|ops| - 1], l), ops[|ops| - 1], l)
  }

  /** The frames of the ordinary lane, in order. */
  function Ordinary(fs: seq<Frame>): seq<Frame> {
    if fs == [] then [] else (if IsPriority(fs[0]) then [] else [fs[0]]) + Ordinary(fs[1..])
  }

  lemma {:induction false} OrdinaryConcat(a: seq<Frame>, b: seq<Frame>)
    ensures Ordinary(a + b) == Ordinary(a) + Ordinary(b)
  {
    hide IsPriority;
    if a == [] {
      assert a + b == b;
    } else {
      OrdinaryConcat(a[1..], b);
      assert (a + b)[1..] == a[1..] + b && (a + b)[0] == a[0];
      var first := if IsPriority(a[0]) then [] else [a[0]];
      assert first + (Ordinary(a[1..]) + Ordinary(b)) == first + Ordinary(a[1..]) + Ordinary(b);
    }
  }

  ghost predicate HelloFirst(fs: seq<Frame>) {
    && (fs != [] ==> fs[0] == HelloFrame())
    && forall i :: 0 < i < |fs| ==> !fs[i].Hello?
  }

  ghost predicate HistoryInv(h: History, l: Limits) {
    && Consistent(h.queue, l)
    && HelloFirst(h.sent + h.queue.frames)
    && (h.closed || (h.sent + h.queue.frames != [] && Ordinary(h.sent + h.queue.frames) == h.ordinary))
    && (h.closed ==> h.queue.frames == [] && Ordinary(h.sent) <= h.ordinary)
  }

  lemma PushOrdinaryKeeps(h: History, f: Frame, isData: bool, l: Limits)
    requires l.Valid() && HistoryInv(h, l) && !h.closed && !f.Hello? && !IsPriority(f)
    ensures HistoryInv(Push(h, f, TryQueue(h.queue, f, isData, l), true), l)
  {
    if TryQueue(h.queue, f, isData, l).Queued? {
      QueueingKeepsBudget(h.queue, f, isData, l);
      var all := h.sent + h.queue.frames;
      assert h.sent + (h.queue.frames + [f]) == all + [f];
      OrdinaryConcat(all, [f]);
    }
  }

  lemma PushPriorityKeeps(h: History, f: Frame, l: Limits)
    requires l.Valid() && HistoryInv(h, l) && !h.closed && IsPriority(f)
    ensures HistoryInv(Push(h, f, TryQueuePriority(h.queue, f, l), false), l)
  {
    if TryQueuePriority(h.queue, f, l).Queued? {
      PriorityKeepsBudget(h.queue, f, l);
      var fs := h.queue.frames;
      var fs' := TryQueuePriority(h.queue, f, l).queue.frames;
      PriorityInvisible(h.queue, f, l);
      OrdinaryConcat(h.sent, fs);
      OrdinaryConcat(h.sent, fs');
      if fs != [] && fs[0].Hello? {
        assert (h.sent + fs)[|h.sent|] == fs[0];
        assert h.sent + fs == fs && h.sent + fs' == fs';
      } else {
        assert h.sent == [] ==> h.sent + fs == fs;
        forall i | 0 < i < |h.sent + fs'| ensures !(h.sent + fs')[i].Hello? {
          assert i < |h.sent| ==> (h.sent + fs)[i] == h.sent[i];
          assert i > |h.sent| ==> (h.sent + fs)[i - 1] == fs'[i - |h.sent|];
        }
      }
    }
  }

  /** The priority lane leaves the order of all other frames alone. */
  lemma PriorityInvisible(q: Queue, f: Frame, l: Limits)
    requires IsPriority(f) && TryQueuePriority(q, f, l).Queued?
    ensures Ordinary(TryQueuePriority(q, f, l).queue.frames) == Ordinary(q.frames)
  {
    var fs := q.frames;
    if fs != [] && fs[0].Hello? {
      OrdinaryConcat([fs[0], f], fs[1..]);
      OrdinaryConcat([fs[0]], [f]);
      assert [fs[0]] + [f] == [fs[0], f];
    } else {
      OrdinaryConcat([f], fs);
    }
  }

  lemma PopKeeps(h: History, l: Limits)
    requires l.Valid() && HistoryInv(h, l)
    ensures HistoryInv(Apply(h, PopFront, l), l)
  {
    if h.queue.frames != [] {
      var fs := h.queue.frames;
      assert h.sent + [fs[0]] + fs[1..] == h.sent + fs;
    }
  }

  lemma ClearKeeps(h: History, l: Limits)
    requires l.Valid() && HistoryInv(h, l)
    ensures HistoryInv(Apply(h, ClearAll, l), l)
  {
    OrdinaryConcat(h.sent, h.queue.frames);
    assert h.sent + [] == h.sent;
    forall i | 0 < i < |h.sent| ensures !h.sent[i].Hello? {
      assert (h.sent + h.queue.frames)[i] == h.sent[i];
    }
  }

  /** Over every run: the first frame popped is the only Hello, ordinary frames leave in the order
      queued, the byte count is exact and both hard limits hold. */
  lemma {:induction false} QueueRuns(ops: seq<Op>, l: Limits)
    requires l.Valid() && forall i :: 0 <= i < |ops| ==> Permitted(ops[i])
    ensures HistoryInv(Run(ops, l), l)
  {
    if ops == [] {
      assert [] + [HelloFrame()] == [HelloFrame()];
    } else {
      var h := Run(ops[..|ops| - 1], l);
      QueueRuns(ops[..|ops| - 1], l);
      match ops[|ops| - 1]
      case PushControl(f) => if !h.closed { PushOrdinaryKeeps(h, f, false, l); }
      case PushData(f) => if !h.closed { PushOrdinaryKeeps(h, f, true, l); }
      case PushPriority(f) => if !h.closed { PushPriorityKeeps(h, f, l); }
      case PopFront => PopKeeps(h, l);
      case ClearAll => ClearKeeps(h, l);
    }
  }

  // ---------- The reserve for control traffic ----------

  /** The data frames, or all others, in order. */
  function Part(fs: seq<Frame>, data: bool): seq<Frame> {
    if fs == [] then [] else Pick(fs[0], data) + Part(fs[1..], data)
  }

  function Pick(f: Frame, data: bool): seq<Frame> { if f.Data? == data then [f] else [] }

  lemma {:induction false} PartConcat(a: seq<Frame>, b: seq<Frame>, data: bool)
    ensures Part(a + b, data) == Part(a, data) + Part(b, data)
  {
    hide Pick;
    if a == [] {
      assert a + b == b;
    } else {
      PartConcat(a[1..], b, data);
      assert (a + b)[1..] == a[1..] + b && (a + b)[0] == a[0];
      assert Part(a, data) + Part(b, data) == Pick(a[0], data) + (Part(a[1..], data) + Part(b, data));
    }
  }

  lemma {:induction false} PartSizes(fs: seq<Frame>)
    ensures |Part(fs, true)| + |Part(fs, false)| == |fs|
    ensures TotalLength(Part(fs, true)) + TotalLength(Part(fs, false)) == TotalLength(fs)
  {
    hide FrameLength;
    if fs != [] {
      PartSizes(fs[1..]);
      TotalLengthConcat([fs[0]], Part(fs[1..], fs[0].Data?));
      TotalLengthConcat([], Part(fs[1..], !fs[0].Data?));
      assert [] + Part(fs[1..], !fs[0].Data?) == Part(fs[1..], !fs[0].Data?);
      assert TotalLength([fs[0]]) == FrameLength(fs[0]) by { assert [fs[0]][1..] == []; }
    }
  }

  /** Data leaves the reserve alone. */
  ghost predicate ReserveKept(fs: seq<Frame>, l: Limits) {
    && |Part(fs, true)| <= l.maxQueuedFrames - l.reservedFrames
    && TotalLength(Part(fs, true)) <= l.maxQueuedBytes - l.reservedBytes
  }

  lemma PartOne(f: Frame, data: bool)
    ensures Part([f], data) == if f.Data? == data then [f] else []
  {
    assert [f][1..] == [];
    assert Pick(f, data) + [] == Pick(f, data);
  }

  lemma PushReserve(h: History, f: Frame, isData: bool, l: Limits)
    requires l.Valid() && Consistent(h.queue, l) && ReserveKept(h.queue.frames, l) && f.Data? == isData
    ensures ReserveKept(Push(h, f, TryQueue(h.queue, f, isData, l), true).queue.frames, l)
  {
    hide Part, TotalLength, FrameLength;
    var r := TryQueue(h.queue, f, isData, l);
    if r.Queued? {
      QueueingKeepsBudget(h.queue, f, isData, l);
      PartConcat(h.queue.frames, [f], true);
      PartOne(f, true);
      PartSizes(r.queue.frames);
      assert !isData ==> Part(h.queue.frames, true) + [] == Part(h.queue.frames, true);
    }
  }

  lemma PriorityReserve(h: History, f: Frame, l: Limits)
    requires ReserveKept(h.queue.frames, l) && !f.Data?
    ensures ReserveKept(Push(h, f, TryQueuePriority(h.queue, f, l), false).queue.frames, l)
  {
    hide Part, TotalLength, FrameLength;
    var fs := h.queue.frames;
    PartOne(f, true);
    PartConcat([f], fs, true);
    assert [] + Part(fs, true) == Part(fs, true);
    if fs != [] {
      assert fs == [fs[0]] + fs[1..] && [fs[0], f] == [fs[0]] + [f];
      PartConcat([fs[0]], fs[1..], true);
      PartConcat([fs[0], f], fs[1..], true);
      PartConcat([fs[0]], [f], true);
      assert Part([fs[0]], true) + [] == Part([fs[0]], true);
    }
  }

  lemma PopReserve(h: History, l: Limits)
    requires l.Valid() && ReserveKept(h.queue.frames, l)
    ensures ReserveKept(Apply(h, PopFront, l).queue.frames, l)
  {
    hide Part, TotalLength, FrameLength;
    var fs := h.queue.frames;
    if fs != [] {
      assert fs == [fs[0]] + fs[1..];
      PartConcat([fs[0]], fs[1..], true);
      TotalLengthConcat(Part([fs[0]], true), Part(fs[1..], true));
    }
  }

  lemma EmptyReserve(l: Limits)
    requires l.Valid()
    ensures ReserveKept([], l) && ReserveKept([HelloFrame()], l)
  {
    PartOne(HelloFrame(), true);
  }

  lemma {:induction false} ReserveRuns(ops: seq<Op>, l: Limits)
    requires l.Valid() && forall i :: 0 <= i < |ops| ==> Permitted(ops[i])
    ensures ReserveKept(Run(ops, l).queue.frames, l)
  {
    hide ReserveKept, Push, HelloFrame, HistoryInv, TryQueue, TryQueuePriority;
    EmptyReserve(l);
    if ops != [] {
      var before := ops[..|ops| - 1];
      ReserveRuns(before, l);
      QueueRuns(before, l);
      var h := Run(before, l);
      assert Consistent(h.queue, l) by { BudgetOf(h, l); }
      match ops[|ops| - 1]
      case PushControl(f) => PushReserve(h, f, false, l);
      case PushData(f) => PushReserve(h, f, true, l);
      case PushPriority(f) => PriorityReserve(h, f, l);
      case PopFront => PopReserve(h, l);
      case ClearAll =>
    }
  }

  lemma BudgetOf(h: History, l: Limits)
    requires HistoryInv(h, l)
    ensures Consistent(h.queue, l)
  {
    hide HelloFirst, Consistent, Ordinary;
  }

  /** In every run, only control frames can keep a control frame out: data never takes the reserve, so
      a control frame is admitted, in either lane, while those queued before it leave room for it in
      the reserve; in particular whenever only data is queued and it fits the reserve. */
  lemma ReserveAdmitsControl(ops: seq<Op>, l: Limits, f: Frame)
    requires l.Valid() && forall i :: 0 <= i < |ops| ==> Permitted(ops[i])
    requires FrameLength(f) <= l.maxFrameSize
    requires var others := Part(Run(ops, l).queue.frames, false);
             |others| < l.reservedFrames && TotalLength(others) + FrameLength(f) <= l.reservedBytes
    ensures var q := Run(ops, l).queue;
            && |Part(q.frames, true)| <= l.maxQueuedFrames - l.reservedFrames
            && TotalLength(Part(q.frames, true)) <= l.maxQueuedBytes - l.reservedBytes
            && TryQueue(q, f, false, l).Queued? && TryQueuePriority(q, f, l).Queued?
  {
    hide Run, Part, TotalLength, FrameLength, HistoryInv;
    ReserveRuns(ops, l);
    QueueRuns(ops, l);
    BudgetOf(Run(ops, l), l);
    PartSizes(Run(ops, l).queue.frames);
  }
}
