/** The guarantees of the multiplexer, over all runs of two endpoints. */
module Multiplex {
  import opened Wrappers
  import opened FrameCodec
  import opened ConnectionLimits
  import opened OutgoingQueue
  import opened ReceiveWindow
  import opened Endpoint
  import opened EndpointSafety
  import opened Link
  import opened LinkUpdates
  import opened Pipes
  import opened System
  import opened SystemSteps
  import opened SystemDelivery
  import opened SystemOpening
  import opened SystemLocal
  import opened SystemCleanup
  import opened SystemRuns

  /** One side takes a step. */
  datatype Move = Move(byA: bool, action: Action)

  predicate ValidLimits(s: System) { s.a.e.limits.Valid() && s.b.e.limits.Valid() }

  function Step(s: System, m: Move): (s': System)
    requires ValidLimits(s)
    ensures ValidLimits(s')
  {
    if m.byA then
      var (x, y) := Act(s.a, s.b, m.action);
      ActLimits(s.a, s.b, m.action);
      System(x, y)
    else
      var (y, x) := Act(s.b, s.a, m.action);
      ActLimits(s.b, s.a, m.action);
      System(x, y)
  }

  lemma ActLimits(p: Side, q: Side, action: Action)
    requires p.e.limits.Valid()
    ensures Act(p, q, action).0.e.limits == p.e.limits && Act(p, q, action).1.e.limits == q.e.limits
  {
    hide Perform, Handle;
    match action
    case Local(v) => LimitsFixed(p.e, v);
    case Transmit =>
    case Deliver => if q.wire != [] { LimitsFixed(p.e, Receive(q.wire[0])); PerformReceive(p.e, q.wire[0]); }
  }

  lemma PerformReceive(e: State, f: Frame)
    requires e.limits.Valid()
    ensures Perform(e, Receive(f)) == Handle(e, f).0
  {
  }

  function Start(a: Limits, b: Limits): System {
    System(Side(Fresh(a), [], map[], map[]), Side(Fresh(b), [], map[], map[]))
  }

  function Run(a: Limits, b: Limits, ms: seq<Move>): (s: System)
    requires a.Valid() && b.Valid()
    ensures ValidLimits(s)
    decreases |ms|
  {
    if ms == [] then Start(a, b) else Step(Run(a, b, ms[..|ms| - 1]), ms[|ms| - 1])
  }

  lemma RunStep(a: Limits, b: Limits, ms: seq<Move>)
    requires a.Valid() && b.Valid() && ms != []
    ensures Run(a, b, ms) == Step(Run(a, b, ms[..|ms| - 1]), ms[|ms| - 1])
  {
    hide Step;
  }

  predicate Open(s: System) { Up(s.a, s.b) }

  // ---------- The invariant holds in every run ----------

  lemma StartView(a: Limits, b: Limits, x: Id)
    ensures LinkInv(ViewOf(Start(a, b).a, Start(a, b).b, x))
  {
    hide DirectionInv, LoadOf, Plus;
    var v := ViewOf(Start(a, b).a, Start(a, b).b, x);
    StartSelect(To(x));
    StartSelect(From(x));
    NothingAnswers();
  }

  lemma StartSelect(k: Key)
    requires k != Nobody
    ensures Select([] + Initial().queue.frames, k) == []
  {
    assert [] + Initial().queue.frames == [HelloFrame()];
    SelectOne(HelloFrame(), k);
  }

  lemma StartHalf(a: Limits, b: Limits)
    requires a.Valid()
    ensures HalfInv(Start(a, b).a, Start(a, b).b)
  {
    hide LinkInv, ViewOf, LocalInv;
    FreshInv(a);
    forall x: Id ensures LinkInv(ViewOf(Start(a, b).a, Start(a, b).b, x)) { StartView(a, b, x); }
    assert [] + Initial().queue.frames == [HelloFrame()];
  }

  lemma StartInv(a: Limits, b: Limits)
    requires a.Valid() && b.Valid()
    ensures PairInv(Start(a, b).a, Start(a, b).b)
  {
    hide HalfInv;
    StartHalf(a, b);
    StartHalf(b, a);
  }

  lemma StepKeeps(s: System, m: Move)
    requires ValidLimits(s) && (Open(s) ==> PairInv(s.a, s.b))
    ensures Open(Step(s, m)) ==> Open(s) && PairInv(Step(s, m).a, Step(s, m).b)
  {
    hide PairInv, LocalStep, TransmitStep, DeliverStep;
    if Open(s) {
      if m.byA {
        ActKeeps(s.a, s.b, m.action);
      } else {
        Swap(s.a, s.b);
        ActKeeps(s.b, s.a, m.action);
        var (y, x) := Act(s.b, s.a, m.action);
        if Up(x, y) { Swap(y, x); }
      }
    }
  }

  lemma {:induction false} RunInv(a: Limits, b: Limits, ms: seq<Move>)
    requires a.Valid() && b.Valid()
    ensures var s := Run(a, b, ms); Open(s) ==> PairInv(s.a, s.b)
    decreases |ms|
  {
    hide PairInv, Step;
    if ms == [] {
      StartInv(a, b);
    } else {
      RunInv(a, b, ms[..|ms| - 1]);
      StepKeeps(Run(a, b, ms[..|ms| - 1]), ms[|ms| - 1]);
    }
  }

  // ---------- Either side's point of view ----------

  function Mine(s: System, a: bool): Side { if a then s.a else s.b }

  function Theirs(s: System, a: bool): Side { if a then s.b else s.a }

  lemma SideInv(a: Limits, b: Limits, ms: seq<Move>, side: bool)
    requires a.Valid() && b.Valid() && Open(Run(a, b, ms))
    ensures var s := Run(a, b, ms); PairInv(Mine(s, side), Theirs(s, side)) && Mine(s, side).e.limits.Valid() && Up(Mine(s, side), Theirs(s, side))
  {
    hide PairInv, Run;
    RunInv(a, b, ms);
    var s := Run(a, b, ms);
    Swap(s.a, s.b);
  }

  /** The channel `z` of `p` and its counterpart are both open. */
  predicate Connected(p: Side, q: Side, z: Id) {
    z in p.e.channels && p.e.channels[z].remote in q.e.channels
  }

  /** Data frames under way from channel `z` of `p` to its counterpart. */
  function UnderWay(p: Side, z: Id): Load
    requires z in p.e.channels
  {
    Total(Select(Pipe(p), To(p.e.channels[z].remote)))
  }

  /** Adjust credit under way to channel `z` from the other side. */
  function ComingBack(q: Side, z: Id): Credits { Total(Select(Pipe(q), To(z))).credit }

  // ---------- Credit conservation ----------

  lemma ViewParts(p: Side, q: Side, z: Id)
    requires PairInv(p, q) && z in p.e.channels
    ensures var w := p.e.channels[z].remote;
            && w in q.peers && q.peers[w] == z && z in p.peers && p.peers[z] == w
            && DirectionInv(NearOf(p, z), FarOf(q.e, w), UnderWay(p, z), ComingBack(q, z))
            && NearOf(p, z).snd == Some(p.e.channels[z].sender) && NearOf(p, z).awaiting == 0
            && |Select(Pipe(p), From(z))| + q.e.held[Incoming(z, INITIAL_CREDITS)] == 0
            && FarOf(q.e, w).awaiting == NearOf(q, w).awaiting
  {
    ChannelFacts(p, q, z);
    hide LinkInv, PairInv, Select, Pipe;
    DirectionOf(ViewOf(p, q, z));
    hide DirectionInv;
    ViewAwaits(p, q, z);
  }

  lemma ViewAwaits(p: Side, q: Side, z: Id)
    requires LinkInv(ViewOf(p, q, z)) && z in p.e.channels
    ensures NearOf(p, z).awaiting == 0 && |Select(Pipe(p), From(z))| + q.e.held[Incoming(z, INITIAL_CREDITS)] == 0
  {
    hide Select, Pipe, DirectionInv, Awaiting, Total;
  }

  /** For each direction of a channel in every run, the credit at the receiving end is the sender's
      plus the data under way plus the credit on its way back. The receiving end is the channel, or
      its tombstone after it was cleaned up, or the initial credit while its accept is under way:
      credit is conserved through receiver drop, cleanup and the late accept of a cancelled open. */
  lemma CreditConservation(a: Limits, b: Limits, ms: seq<Move>, side: bool, z: Id)
    requires a.Valid() && b.Valid() && Open(Run(a, b, ms))
    requires z in Mine(Run(a, b, ms), side).e.channels
    ensures var s := Run(a, b, ms);
            var p, q := Mine(s, side), Theirs(s, side);
            var snd, out, back := p.e.channels[z].sender, UnderWay(p, z), ComingBack(q, z);
            var receiving := ReceiveCredit(FarOf(q.e, p.e.channels[z].remote));
            receiving.Some? ==>
              && receiving.value.frames == snd.credit.frames + out.frames + back.frames
              && receiving.value.bytes == snd.credit.bytes + |out.payload| + back.bytes
  {
    hide PairInv, Run;
    SideInv(a, b, ms, side);
    var s := Run(a, b, ms);
    var p, q := Mine(s, side), Theirs(s, side);
    ViewParts(p, q, z);
    hide UnderWay, ComingBack, HalvesInv, Streamed, Ended, FarOf, ReceiveCredit;
  }

  // ---------- Reliable streams ----------

  /** Until the reader is dropped: taken, partly read, buffered, under way, and not yet sent are
      together, in this order, the bytes the writer accepted. No data frame is ever empty. */
  lemma ReliableStream(a: Limits, b: Limits, ms: seq<Move>, side: bool, z: Id)
    requires a.Valid() && b.Valid() && Open(Run(a, b, ms))
    requires Connected(Mine(Run(a, b, ms), side), Theirs(Run(a, b, ms), side), z)
    ensures var s := Run(a, b, ms);
            var p, q := Mine(s, side), Theirs(s, side);
            var snd, rcv := p.e.channels[z].sender, q.e.channels[p.e.channels[z].remote].receiver;
            && !UnderWay(p, z).empty && (snd.pending.Some? ==> snd.pending.value != [])
            && (!rcv.dropped ==>
              snd.accepted == rcv.taken + Remainder(rcv) + Concat(rcv.buffer) + UnderWay(p, z).payload + Unsent(snd))
  {
    hide PairInv, Run;
    SideInv(a, b, ms, side);
    var s := Run(a, b, ms);
    var p, q := Mine(s, side), Theirs(s, side);
    ViewParts(p, q, z);
    hide UnderWay, ComingBack, HalvesInv, Conserved, Ended, Awaiting, FindTombstone, CountTombstones, Concat, NoEmptyChunks;
  }

  /** What a reader has when it sees the end of the stream: the sender has finished, everything it
      sent was taken, and only a chunk a dropped sender never flushed is missing. After a successful
      close nothing is. Without a sender the open was cancelled and nothing was ever sent. */
  ghost predicate Complete(n: Near, r: Receiver) {
    && r.closed
    && if SenderOf(n).None? then n.awaiting == 0 && r.taken == []
       else
         var snd := SenderOf(n).value;
         && snd.closed && (snd.closedSent || snd.dropped)
         && snd.accepted == r.taken + Unsent(snd)
         && (snd.closedSent ==> snd.accepted == r.taken)
  }

  /** End of stream is a read of nothing into a non-empty buffer. */
  lemma EndOfStream(a: Limits, b: Limits, ms: seq<Move>, side: bool, w: Id, room: nat)
    requires a.Valid() && b.Valid() && Open(Run(a, b, ms)) && 0 < room
    requires ReceiverLive(Theirs(Run(a, b, ms), side).e, w)
    requires Read(Theirs(Run(a, b, ms), side).e, w, room).1 == Ready([])
    ensures var s := Run(a, b, ms);
            var p, q := Mine(s, side), Theirs(s, side);
            w in q.peers && Complete(NearOf(p, q.peers[w]), q.e.channels[w].receiver)
  {
    hide PairInv, Run;
    SideInv(a, b, ms, side);
    var s := Run(a, b, ms);
    var p, q := Mine(s, side), Theirs(s, side);
    Swap(p, q);
    ChannelFacts(q, p, w);
    MirrorFacts(q, p, w);
    EndView(p, q, q.peers[w], w, room);
  }

  lemma EndView(p: Side, q: Side, z: Id, w: Id, room: nat)
    requires LinkInv(ViewOf(p, q, z)) && ViewOf(p, q, z).near.peer == Some(w) && ReceiverLive(q.e, w)
    requires 0 < room && Read(q.e, w, room).1 == Ready([])
    ensures Complete(NearOf(p, z), q.e.channels[w].receiver)
  {
    hide Select, Pipe, Awaiting, FindTombstone, CountTombstones;
    var v := ViewOf(p, q, z);
    DirectionOf(v);
    NoDataNoPayload(v.outbound);
    assert v.far.rcv == Some(q.e.channels[w].receiver);
    EndDirection(v.near, v.far, Total(v.outbound), Total(v.inbound).credit, q.e, w, room);
  }

  lemma EndDirection(n: Near, far: Far, out: Load, back: Credits, e: State, w: Id, room: nat)
    requires DirectionInv(n, far, out, back) && (out.frames == 0 ==> out.payload == [])
    requires ReceiverLive(e, w) && far.rcv == Some(e.channels[w].receiver) && 0 < room && Read(e, w, room).1 == Ready([])
    ensures Complete(n, far.rcv.value)
  {
    var r := far.rcv.value;
    if r.partial.Some? {
      TakeArrives(r, room);
      assert false;
    }
    assert Concat(r.buffer) == [];
    assert Arrived(r) == r.taken;
    hide Conserved, WindowInv, Tight, Take;
  }

  /** With nothing left to read or under way, a read reports the end of the stream exactly when the
      sender has finished: a finished stream always ends for its reader, an unfinished one never. */
  lemma EndVisible(a: Limits, b: Limits, ms: seq<Move>, side: bool, w: Id, room: nat)
    requires a.Valid() && b.Valid() && Open(Run(a, b, ms)) && 0 < room
    requires ReceiverLive(Theirs(Run(a, b, ms), side).e, w)
    requires var s := Run(a, b, ms);
             var rcv := Theirs(s, side).e.channels[w].receiver;
             Select(Pipe(Mine(s, side)), To(w)) == [] && rcv.buffer == [] && rcv.partial.None?
    ensures var s := Run(a, b, ms);
            var p, q := Mine(s, side), Theirs(s, side);
            w in q.peers && (Read(q.e, w, room).1 == Ready([]) <==> Finished(NearOf(p, q.peers[w])))
  {
    hide PairInv, Run;
    SideInv(a, b, ms, side);
    var s := Run(a, b, ms);
    var p, q := Mine(s, side), Theirs(s, side);
    Swap(p, q);
    ChannelFacts(q, p, w);
    MirrorFacts(q, p, w);
    NothingAnswers();
    VisibleView(p, q, q.peers[w], w);
  }

  lemma VisibleView(p: Side, q: Side, z: Id, w: Id)
    requires LinkInv(ViewOf(p, q, z)) && ViewOf(p, q, z).near.peer == Some(w) && ReceiverLive(q.e, w)
    requires Select(Pipe(p), To(w)) == []
    ensures q.e.channels[w].receiver.closed <==> Finished(NearOf(p, z))
  {
    hide Select, Pipe, Awaiting, FindTombstone, CountTombstones, Finished, Conserved, Streamed, HalvesInv;
    var v := ViewOf(p, q, z);
    DirectionOf(v);
    assert v.far.rcv == Some(q.e.channels[w].receiver);
    assert Ended(v.near, v.far, NOTHING);
  }

  // ---------- No credit stall ----------

  /** Whenever nothing of a direction is under way and the open receiver has drained its buffer, the
      sender holds at least half of the current window of both credits, so it can send. */
  lemma NoCreditStall(a: Limits, b: Limits, ms: seq<Move>, side: bool, z: Id)
    requires a.Valid() && b.Valid() && Open(Run(a, b, ms))
    requires Connected(Mine(Run(a, b, ms), side), Theirs(Run(a, b, ms), side), z)
    requires var s := Run(a, b, ms);
             var p, q := Mine(s, side), Theirs(s, side);
             var rcv := q.e.channels[p.e.channels[z].remote].receiver;
             && Select(Pipe(p), To(p.e.channels[z].remote)) == [] == Select(Pipe(q), To(z))
             && !rcv.closed && rcv.buffer == []
    ensures var s := Run(a, b, ms);
            var p, q := Mine(s, side), Theirs(s, side);
            var snd, rcv := p.e.channels[z].sender, q.e.channels[p.e.channels[z].remote].receiver;
            && snd.credit.frames >= rcv.window.frames / 2 >= INITIAL_FRAME_CREDIT / 2 > 0
            && snd.credit.bytes >= rcv.window.bytes / 2 >= INITIAL_BYTE_CREDIT / 2 > 0
  {
    hide PairInv, Run;
    SideInv(a, b, ms, side);
    var s := Run(a, b, ms);
    var p, q := Mine(s, side), Theirs(s, side);
    ViewParts(p, q, z);
    NothingAnswers();
    hide Select, Pipe, Streamed, Ended, Awaiting, FindTombstone, CountTombstones, NoEmptyChunks, SenderInv, Total;
  }

  // ---------- Opens and their answers ----------

  /** How often an open, its held request, or its answer is in existence. */
  function AnswersDue(p: Side, q: Side, x: Id): nat {
    |Select(Pipe(p), From(x))| + q.e.held[Incoming(x, INITIAL_CREDITS)] + Total(Select(Pipe(q), To(x))).answers
  }

  /** Every id whose request or answer is under way, or held by the peer, is in exactly one of the
      pending and the cancelled opens, and only such ids are; ids not yet assigned are in none. */
  lemma OpensMatched(a: Limits, b: Limits, ms: seq<Move>, side: bool, x: Id)
    requires a.Valid() && b.Valid() && Open(Run(a, b, ms))
    ensures var s := Run(a, b, ms);
            var p, q := Mine(s, side), Theirs(s, side);
            && AnswersDue(p, q, x) == (if x in p.e.pending then 1 else 0) + multiset(p.e.cancelled)[x] <= 1
            && (x >= p.e.nextId ==> AnswersDue(p, q, x) == 0 && x !in p.e.channels && x !in p.graves && x !in p.peers)
  {
    hide PairInv, Run;
    SideInv(a, b, ms, side);
    var s := Run(a, b, ms);
    LinkOf(Mine(s, side), Theirs(s, side), x);
    hide Select, Pipe, DirectionInv, FindTombstone, CountTombstones, FarOf, Total;
  }

  // ---------- Conforming peers ----------

  /** Whatever the other side sends, it never violates the flow control or the answer protocol here:
      the next frame is processed, or is a text this side refuses to read, or meets a full queue.
      A frame for an unknown channel belongs to one whose tombstone is gone. The Hello is the
      first frame to arrive and the only one. */
  lemma ConformingPeer(a: Limits, b: Limits, ms: seq<Move>, side: bool)
    requires a.Valid() && b.Valid() && Open(Run(a, b, ms))
    requires Theirs(Run(a, b, ms), side).wire != []
    ensures var s := Run(a, b, ms);
            var p, f := Mine(s, side), Theirs(s, side).wire[0];
            var outcome := Handle(p.e, f).1;
            && Benign(outcome)
            && (outcome == Violates(PayloadTooLarge) <==> ControlPayload(f) > p.e.limits.maxControlPayload && !f.Request?)
            && (outcome.Unknown? ==> KeyOf(f).To? && Forgotten(p, KeyOf(f).id))
            && (!p.e.helloReceived <==> f.Hello?)
  {
    hide PairInv, Run;
    SideInv(a, b, ms, side);
    var s := Run(a, b, ms);
    var p, q := Mine(s, side), Theirs(s, side);
    HandleDelivered(p, q);
    Greeted(p, q);
    TextJudged(p.e, q.wire[0]);
    hide Handle, Forgotten;
  }

  lemma TextJudged(e: State, f: Frame)
    requires e.limits.Valid() && (e.helloReceived || f.Hello?)
    ensures Handle(e, f).1 == Violates(PayloadTooLarge) <==> ControlPayload(f) > e.limits.maxControlPayload && !f.Request?
  {
    hide Send, SendPriority, FindTombstone;
  }
}
