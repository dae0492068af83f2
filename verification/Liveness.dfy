/** Pings, their Pongs, and the two deadlines that watch them. */
module Liveness {
  import opened Wrappers
  import opened FrameCodec
  import opened ConnectionLimits
  import opened OutgoingQueue

  /** The liveness fields of a connection; `sent` stands for `last_ping` being present. */
  datatype Watch = Watch(
    outstanding: bool,
    sent: bool,
    pongReceived: bool,
    awaitingFlush: bool,
    writeDeadline: bool,
    pongDeadline: bool)

  const RESTING: Watch := Watch(false, false, true, false, false, false)

  /** `ping` once its interval has elapsed and its frame was queued. */
  function PingQueued(w: Watch): Watch { w.(outstanding := true, writeDeadline := true) }

  /** The outgoing frame loop handed a frame to the transport. */
  function FrameSent(w: Watch, f: Frame): Watch {
    if w.outstanding && !w.sent && f.Ping? then w.(sent := true, pongReceived := false, awaitingFlush := true) else w
  }

  /** The transport was flushed. */
  function Flushed(w: Watch): Watch {
    if !w.awaitingFlush then w
    else if w.pongReceived then w.(awaitingFlush := false, writeDeadline := false, outstanding := false)
    else w.(awaitingFlush := false, writeDeadline := false, pongDeadline := true)
  }

  /** `handle_pong`, unless no Ping was sent. */
  function PongArrived(w: Watch): Watch {
    w.(sent := false, pongReceived := true, outstanding := false, awaitingFlush := false, writeDeadline := false, pongDeadline := false)
  }

  // ---------- One side and its frames under way ----------

  datatype Side = Side(watch: Watch, queue: Queue, wire: seq<Frame>, limits: Limits, down: bool)

  datatype Action =
    | Tick
    | Enqueue(f: Frame, isData: bool)
    | Transmit
    | Flush
    | Deliver

  function WithQueue(s: Side, r: QueueResult): Side {
    if r.Queued? then s.(queue := r.queue) else s.(down := true)
  }

  function TickStep(p: Side, helloReceived: bool): Side {
    if !helloReceived || p.watch.outstanding then p
    else
      var r := TryQueuePriority(p.queue, Ping, p.limits);
      if r.Queued? then p.(queue := r.queue, watch := PingQueued(p.watch)) else p.(down := true)
  }

  function TransmitStep(p: Side): Side {
    if p.queue.frames == [] || p.queue.bytes < FrameLength(p.queue.frames[0]) then p
    else
      var f := p.queue.frames[0];
      p.(queue := Queue(p.queue.frames[1..], p.queue.bytes - FrameLength(f)), wire := p.wire + [f], watch := FrameSent(p.watch, f))
  }

  /** Processing the oldest frame from the other side; a Pong that nobody asked for is a violation. */
  function Receive(p: Side, f: Frame): Side {
    match f
    case Ping => WithQueue(p, TryQueuePriority(p.queue, Pong, p.limits))
    case Pong => if p.watch.sent then p.(watch := PongArrived(p.watch)) else p.(down := true)
    case _ => p
  }

  predicate Ordinary(f: Frame) { !f.Ping? && !f.Pong? }

  function Act(p: Side, q: Side, action: Action, helloReceived: bool): (Side, Side)
    requires p.limits.Valid()
  {
    match action
    case Tick => (TickStep(p, helloReceived), q)
    case Enqueue(f, isData) => (if !Ordinary(f) then p else WithQueue(p, TryQueue(p.queue, f, isData, p.limits)), q)
    case Transmit => (TransmitStep(p), q)
    case Flush => (p.(watch := Flushed(p.watch)), q)
    case Deliver => if q.wire == [] then (p, q) else (Receive(p, q.wire[0]), q.(wire := q.wire[1..]))
  }

  // ---------- The invariant ----------

  function Pings(fs: seq<Frame>): nat { if fs == [] then 0 else (if fs[0].Ping? then 1 else 0) + Pings(fs[1..]) }

  function Pongs(fs: seq<Frame>): nat { if fs == [] then 0 else (if fs[0].Pong? then 1 else 0) + Pongs(fs[1..]) }

  /** Exactly one deadline watches an outstanding Ping: until it is flushed the one for writing, then
      the one for its Pong; and nothing is watched otherwise. */
  ghost predicate WatchInv(w: Watch) {
    && (w.sent ==> w.outstanding) && (w.sent <==> !w.pongReceived)
    && (w.awaitingFlush ==> w.sent)
    && (w.writeDeadline <==> w.outstanding && (!w.sent || w.awaitingFlush))
    && (w.pongDeadline <==> w.outstanding && w.sent && !w.awaitingFlush)
  }

  /** `p`'s Pings and the Pongs that answer them. */
  ghost predicate Counted(p: Side, q: Side) {
    && Pings(p.wire) + Pings(p.queue.frames) + Pongs(q.wire) + Pongs(q.queue.frames) == (if p.watch.outstanding then 1 else 0)
    && Pings(p.queue.frames) == if p.watch.outstanding && !p.watch.sent then 1 else 0
  }

  ghost predicate PairInv(p: Side, q: Side) {
    && p.limits.Valid() && q.limits.Valid()
    && WatchInv(p.watch) && WatchInv(q.watch) && Counted(p, q) && Counted(q, p)
  }

  lemma {:induction false} CountConcat(a: seq<Frame>, b: seq<Frame>)
    ensures Pings(a + b) == Pings(a) + Pings(b) && Pongs(a + b) == Pongs(a) + Pongs(b)
  {
    if a == [] { assert a + b == b; } else { CountConcat(a[1..], b); assert (a + b)[1..] == a[1..] + b; }
  }

  lemma CountHead(fs: seq<Frame>)
    requires fs != []
    ensures Pings(fs) == (if fs[0].Ping? then 1 else 0) + Pings(fs[1..])
    ensures Pongs(fs) == (if fs[0].Pong? then 1 else 0) + Pongs(fs[1..])
  {
  }

  lemma CountOne(f: Frame)
    ensures Pings([f]) == (if f.Ping? then 1 else 0) && Pongs([f]) == if f.Pong? then 1 else 0
  {
    assert [f][1..] == [];
  }

  lemma PriorityCount(q: Queue, f: Frame, l: Limits)
    requires TryQueuePriority(q, f, l).Queued?
    ensures var fs := TryQueuePriority(q, f, l).queue.frames;
            && Pings(fs) == Pings(q.frames) + (if f.Ping? then 1 else 0)
            && Pongs(fs) == Pongs(q.frames) + if f.Pong? then 1 else 0
  {
    CountOne(f);
    var fs := q.frames;
    CountConcat([f], fs);
    if fs != [] && fs[0].Hello? {
      assert [fs[0], f] == [fs[0]] + [f] && fs == [fs[0]] + fs[1..];
      CountConcat([fs[0], f], fs[1..]);
      CountConcat([fs[0]], [f]);
      CountConcat([fs[0]], fs[1..]);
    }
  }

  lemma TickKeeps(p: Side, q: Side, helloReceived: bool)
    requires PairInv(p, q)
    ensures TickStep(p, helloReceived).down || PairInv(TickStep(p, helloReceived), q)
  {
    hide Pings, Pongs, TryQueuePriority;
    if helloReceived && !p.watch.outstanding && TryQueuePriority(p.queue, Ping, p.limits).Queued? { PriorityCount(p.queue, Ping, p.limits); }
  }

  /** A Ping is queued exactly when the peer has greeted, none is outstanding, and there is room; and it
      leaves before everything but an unsent Hello. */
  lemma PingDue(p: Side, helloReceived: bool)
    requires p.limits.Valid() && !p.down
    ensures var p' := TickStep(p, helloReceived);
            var room := |p.queue.frames| + 1 <= p.limits.maxQueuedFrames && p.queue.bytes + 1 <= p.limits.maxQueuedBytes;
            && (p'.queue != p.queue <==> helloReceived && !p.watch.outstanding && room)
            && (p'.queue != p.queue ==> p'.watch.outstanding && p'.watch.writeDeadline && !p'.down
                                        && p'.queue.frames[if p.queue.frames != [] && p.queue.frames[0].Hello? then 1 else 0] == Ping)
            && (p'.down <==> helloReceived && !p.watch.outstanding && !room)
  {
    PriorityFirst(p.queue, Ping, p.limits);
    assert FrameLength(Ping) == 1;
    hide TryQueuePriority;
  }

  lemma EnqueueKeeps(p: Side, q: Side, f: Frame, isData: bool)
    requires PairInv(p, q) && Ordinary(f) && TryQueue(p.queue, f, isData, p.limits).Queued?
    ensures PairInv(p.(queue := TryQueue(p.queue, f, isData, p.limits).queue), q)
  {
    hide Pings, Pongs;
    CountConcat(p.queue.frames, [f]);
    CountOne(f);
  }

  lemma TransmitKeeps(p: Side, q: Side)
    requires PairInv(p, q)
    ensures PairInv(TransmitStep(p), q)
  {
    hide Pings, Pongs, FrameLength;
    if TransmitStep(p) != p {
      var f := p.queue.frames[0];
      CountHead(p.queue.frames);
      CountConcat(p.wire, [f]);
      CountOne(f);
    }
  }

  /** The Pong that arrives was asked for. */
  lemma PongExpected(p: Side, q: Side)
    requires PairInv(p, q) && q.wire != [] && q.wire[0].Pong?
    ensures p.watch.sent
  {
    CountHead(q.wire);
  }

  lemma DeliverKeeps(p: Side, q: Side)
    requires PairInv(p, q) && q.wire != []
    ensures Receive(p, q.wire[0]).down ==> p.down || q.wire[0].Ping?
    ensures Receive(p, q.wire[0]).down || PairInv(Receive(p, q.wire[0]), q.(wire := q.wire[1..]))
  {
    hide Pings, Pongs, TryQueuePriority;
    CountHead(q.wire);
    if q.wire[0].Ping? {
      if TryQueuePriority(p.queue, Pong, p.limits).Queued? { PriorityCount(p.queue, Pong, p.limits); }
    } else if q.wire[0].Pong? {
      PongExpected(p, q);
    }
  }

  lemma ActKeeps(p: Side, q: Side, action: Action, helloReceived: bool)
    requires PairInv(p, q) && !p.down && !q.down
    ensures var (p', q') := Act(p, q, action, helloReceived); p'.down || q'.down || PairInv(p', q')
  {
    hide Pings, Pongs, TryQueue, TryQueuePriority, FrameLength;
    match action
    case Tick => TickKeeps(p, q, helloReceived);
    case Enqueue(f, isData) => if Ordinary(f) && TryQueue(p.queue, f, isData, p.limits).Queued? { EnqueueKeeps(p, q, f, isData); }
    case Transmit => TransmitKeeps(p, q);
    case Flush =>
    case Deliver => if q.wire != [] { DeliverKeeps(p, q); }
  }

  // ---------- All runs ----------

  datatype Move = Move(byA: bool, action: Action, helloReceived: bool)

  datatype Pair = Pair(a: Side, b: Side)

  function Start(l: Limits): Side { Side(RESTING, Initial().queue, [], l, false) }

  predicate Open(s: Pair) { !s.a.down && !s.b.down }

  function Step(s: Pair, m: Move): Pair
    requires s.a.limits.Valid() && s.b.limits.Valid()
  {
    if !Open(s) then s
    else if m.byA then
      var (x, y) := Act(s.a, s.b, m.action, m.helloReceived);
      Pair(x, y)
    else
      var (y, x) := Act(s.b, s.a, m.action, m.helloReceived);
      Pair(x, y)
  }

  function Run(a: Limits, b: Limits, ms: seq<Move>): (s: Pair)
    requires a.Valid() && b.Valid()
    ensures s.a.limits == a && s.b.limits == b
    decreases |ms|
  {
    if ms == [] then Pair(Start(a), Start(b)) else Step(Run(a, b, ms[..|ms| - 1]), ms[|ms| - 1])
  }

  lemma {:induction false} RunInv(a: Limits, b: Limits, ms: seq<Move>)
    requires a.Valid() && b.Valid()
    ensures var s := Run(a, b, ms); Open(s) ==> PairInv(s.a, s.b)
    decreases |ms|
  {
    if ms == [] {
      CountOne(HelloFrame());
    } else {
      RunInv(a, b, ms[..|ms| - 1]);
      var s, m := Run(a, b, ms[..|ms| - 1]), ms[|ms| - 1];
      hide PairInv, Act, Run;
      if Open(s) {
        if m.byA { ActKeeps(s.a, s.b, m.action, m.helloReceived); }
        else {
          Turn(s.a, s.b);
          ActKeeps(s.b, s.a, m.action, m.helloReceived);
          var t := Step(s, m);
          if Open(t) { Turn(t.b, t.a); }
        }
      }
      assert Run(a, b, ms) == Step(s, m) by { RunLast(a, b, ms); }
    }
  }

  lemma RunLast(a: Limits, b: Limits, ms: seq<Move>)
    requires a.Valid() && b.Valid() && ms != []
    ensures Run(a, b, ms) == Step(Run(a, b, ms[..|ms| - 1]), ms[|ms| - 1])
  {
    hide Act;
  }

  lemma Turn(p: Side, q: Side)
    requires PairInv(p, q)
    ensures PairInv(q, p)
  {
  }

  function Mine(s: Pair, side: bool): Side { if side then s.a else s.b }

  function Theirs(s: Pair, side: bool): Side { if side then s.b else s.a }

  /** In every run: an endpoint's Pings and the Pongs answering them, queued or on a wire, number one
      while a Ping is outstanding and none otherwise, so every Pong that arrives was asked for; and
      exactly one of the two deadlines runs while a Ping is outstanding, none otherwise. */
  lemma PingRuns(a: Limits, b: Limits, ms: seq<Move>, side: bool)
    requires a.Valid() && b.Valid() && Open(Run(a, b, ms))
    ensures var s := Run(a, b, ms);
            var p, q := Mine(s, side), Theirs(s, side);
            && Pings(p.wire + p.queue.frames) + Pongs(q.wire + q.queue.frames) == (if p.watch.outstanding then 1 else 0)
            && (q.wire != [] && q.wire[0].Pong? ==> p.watch.sent)
            && (p.watch.outstanding ==> p.watch.writeDeadline != p.watch.pongDeadline)
            && (!p.watch.outstanding ==> !p.watch.writeDeadline && !p.watch.pongDeadline)
  {
    RunInv(a, b, ms);
    var s := Run(a, b, ms);
    hide Run, Pings, Pongs;
    Turn(s.a, s.b);
    var p, q := Mine(s, side), Theirs(s, side);
    CountConcat(p.wire, p.queue.frames);
    CountConcat(q.wire, q.queue.frames);
    if q.wire != [] && q.wire[0].Pong? { PongExpected(p, q); }
  }

  /** In every run a flush of the liveness Ping finds no Pong received, so it never takes the branch that
      would clear the Ping; it hands the watch over from the write deadline to the Pong deadline. */
  lemma FlushBranch(a: Limits, b: Limits, ms: seq<Move>, side: bool)
    requires a.Valid() && b.Valid() && Open(Run(a, b, ms)) && Mine(Run(a, b, ms), side).watch.awaitingFlush
    ensures var w := Mine(Run(a, b, ms), side).watch;
            && !w.pongReceived && w.outstanding && w.writeDeadline && !w.pongDeadline
            && Flushed(w).outstanding && Flushed(w).pongDeadline && !Flushed(w).writeDeadline
  {
    RunInv(a, b, ms);
    hide Run, Counted;
  }

  // ---------- The fields as they are updated ----------

  class LivenessState {
    var outstanding: bool
    var sent: bool
    var pongReceived: bool
    var awaitingFlush: bool
    var writeDeadline: bool
    var pongDeadline: bool

    ghost function Value(): Watch
      reads this
    {
      Watch(outstanding, sent, pongReceived, awaitingFlush, writeDeadline, pongDeadline)
    }

    constructor ()
      ensures Value() == RESTING && WatchInv(Value())
    {
      outstanding, sent, pongReceived, awaitingFlush, writeDeadline, pongDeadline := false, false, true, false, false, false;
    }

    /** `ping`: `ready` is the interval timer, `queued` whether the frame fits. */
    method Ping(helloReceived: bool, ready: bool, queued: bool) returns (sends: bool)
      modifies this
      ensures sends == (helloReceived && !old(outstanding) && ready && queued)
      ensures Value() == if sends then PingQueued(old(Value())) else old(Value())
      ensures WatchInv(old(Value())) ==> WatchInv(Value())
    {
      if !helloReceived || outstanding || !ready || !queued { return false; }
      outstanding := true;
      writeDeadline := true;
      sends := true;
    }

    method FrameWritten(f: Frame)
      modifies this
      ensures Value() == FrameSent(old(Value()), f)
      ensures WatchInv(old(Value())) ==> WatchInv(Value())
    {
      if outstanding && !sent && f.Ping? {
        sent := true;
        pongReceived := false;
        awaitingFlush := true;
      }
    }

    method TransportFlushed()
      modifies this
      ensures Value() == Flushed(old(Value()))
      ensures WatchInv(old(Value())) ==> WatchInv(Value())
    {
      if awaitingFlush {
        awaitingFlush := false;
        writeDeadline := false;
        if pongReceived { outstanding := false; } else { pongDeadline := true; }
      }
    }

    method HandlePong() returns (expected: bool)
      modifies this
      ensures expected == old(sent) && Value() == if expected then PongArrived(old(Value())) else old(Value())
      ensures WatchInv(old(Value())) ==> WatchInv(Value()) && (expected ==> Value() == RESTING)
    {
      if !sent { return false; }
      sent := false;
      pongReceived := true;
      outstanding := false;
      awaitingFlush := false;
      writeDeadline := false;
      pongDeadline := false;
      expected := true;
    }
  }
}
