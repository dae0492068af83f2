/** Two fresh endpoints reach each other: whatever their limits, a channel opens and carries data. */
module Handshake {
  import opened Wrappers
  import opened FrameCodec
  import opened ConnectionLimits
  import opened OutgoingQueue
  import opened ReceiveWindow
  import opened Endpoint
  import opened EndpointSafety
  import opened Pipes
  import opened System
  import opened Multiplex

  const IDLE: Queue := Queue([], 0)

  function Holding(f: Frame): Queue { Queue([f], FrameLength(f)) }

  // ---------- Single moves ----------

  /** `p` has nothing else queued than `f`. */
  lemma Transmits(p: Side, q: Side, f: Frame)
    requires p.e.limits.Valid() && Up(p, q) && p.e.queue == Holding(f)
    ensures Act(p, q, Transmit) == (p.(e := p.e.(queue := IDLE), wire := p.wire + [f]), q)
    ensures p.wire == [] ==> p.wire + [f] == [f]
  {
    hide FrameLength;
    assert [f][1..] == [] && [] + [f] == [f];
    assert PopQueue(p.e) == p.e.(queue := IDLE);
    assert PopQueue(p.e) != p.e;
  }

  lemma Delivers(p: Side, q: Side, f: Frame, e': State, outcome: Outcome)
    requires p.e.limits.Valid() && Up(p, q) && q.wire == [f] && FrameLength(f) <= p.e.limits.maxFrameSize
    requires Handle(p.e, f) == (e', outcome) && (outcome.Handled? || outcome.Requested?)
    ensures Act(p, q, Deliver) == (p.(e := e'), q.(wire := []))
  {
    hide Handle;
    assert [f][1..] == [];
  }

  lemma Sends(e: State, f: Frame)
    requires e.limits.Valid() && !e.closing && e.queue == IDLE && FrameLength(f) <= e.limits.maxFrameSize
    ensures Send(e, f) == e.(queue := Holding(f))
  {
    assert [] + [f] == [f];
  }

  lemma Sizes(endpoint: Bytes, buf: Bytes)
    ensures FrameLength(HelloFrame()) == 17
    ensures FrameLength(Request(1, INITIAL_FRAME_CREDIT, INITIAL_BYTE_CREDIT, endpoint)) == 17 + |endpoint|
    ensures FrameLength(Accept(1, 1, INITIAL_FRAME_CREDIT, INITIAL_BYTE_CREDIT)) == 25 && FrameLength(Data(1, buf)) == 9 + |buf|
  {
  }

  // ---------- The run ----------

  function Quiet(l: Limits, nextId: Id, pending: map<Id, bool>, channels: map<Id, Channel>, held: multiset<Incoming>): State {
    State(l, nextId, pending, [], channels, [], held, IDLE, true, false)
  }

  function Greeting(): seq<Move> {
    [Move(true, Transmit), Move(false, Deliver), Move(false, Transmit), Move(true, Deliver)]
  }

  function Opening(endpoint: Bytes): seq<Move> {
    [Move(true, Local(Event.Open(endpoint))), Move(true, Transmit), Move(false, Deliver),
     Move(false, Local(AcceptHeld(Incoming(1, INITIAL_CREDITS)))), Move(false, Transmit), Move(true, Deliver)]
  }

  function Sending(buf: Bytes): seq<Move> {
    [Move(true, Local(WriteBytes(1, buf))), Move(true, Local(FlushChunk(1))), Move(true, Transmit), Move(false, Deliver),
     Move(false, Local(PullChunk(1, false, false))), Move(false, Local(ReadBytes(1, |buf|)))]
  }

  function Continue(s: System, ms: seq<Move>): (t: System)
    requires ValidLimits(s)
    ensures ValidLimits(t)
    decreases |ms|
  {
    if ms == [] then s else Continue(Multiplex.Step(s, ms[0]), ms[1..])
  }

  lemma {:induction false} RunContinues(a: Limits, b: Limits, done: seq<Move>, ms: seq<Move>)
    requires a.Valid() && b.Valid()
    ensures Multiplex.Run(a, b, done + ms) == Continue(Multiplex.Run(a, b, done), ms)
    decreases |ms|
  {
    hide Multiplex.Step;
    if ms == [] {
      assert done + ms == done;
    } else {
      assert (done + [ms[0]])[..|done|] == done;
      assert done + ms == (done + [ms[0]]) + ms[1..];
      RunContinues(a, b, done + [ms[0]], ms[1..]);
    }
  }

  lemma Continues(s: System, m: Move, t: System, rest: seq<Move>)
    requires ValidLimits(s) && Multiplex.Step(s, m) == t
    ensures ValidLimits(t) && Continue(s, [m] + rest) == Continue(t, rest)
  {
    hide Multiplex.Step;
    assert ([m] + rest)[1..] == rest;
  }

  function Calm(e: State, peers: map<Id, Id>): Side { Side(e, [], peers, map[]) }

  /** Both sides idle, in the given states. */
  function Calmly(a: State, b: State, peers: map<Id, Id>): System { System(Calm(a, peers), Calm(b, peers)) }

  lemma HelloHandled(l: Limits)
    requires l.Valid()
    ensures Handle(Fresh(l).(queue := IDLE), HelloFrame()) == (Quiet(l, 1, map[], map[], multiset{}), Handled)
    ensures Handle(Fresh(l), HelloFrame()) == (Quiet(l, 1, map[], map[], multiset{}).(queue := Holding(HelloFrame())), Handled)
  {
  }

  lemma Greets(a: Limits, b: Limits)
    requires a.Valid() && b.Valid()
    ensures Continue(Multiplex.Start(a, b), Greeting())
            == Calmly(Quiet(a, 1, map[], map[], multiset{}), Quiet(b, 1, map[], map[], multiset{}), map[])
  {
    hide FrameLength, Act, Handle;
    var f := HelloFrame();
    var qa, qb := Quiet(a, 1, map[], map[], multiset{}), Quiet(b, 1, map[], map[], multiset{});
    var s0 := Multiplex.Start(a, b);
    var s1 := System(s0.a.(e := Fresh(a).(queue := IDLE), wire := [f]), s0.b);
    var s2 := System(s0.a.(e := Fresh(a).(queue := IDLE)), s0.b.(e := qb.(queue := Holding(f))));
    var s3 := System(s2.a, s0.b.(e := qb, wire := [f]));
    var s4 := Calmly(qa, qb, map[]);
    HelloHandled(a);
    HelloHandled(b);
    Sizes([], []);
    Transmits(s0.a, s0.b, f);
    Delivers(s1.b, s1.a, f, qb.(queue := Holding(f)), Handled);
    Transmits(s2.b, s2.a, f);
    Delivers(s3.a, s3.b, f, qa, Handled);
    hide Quiet, Holding, Calmly;
    FourMoves(s0, s1, s2, s3, s4, Greeting());
  }

  // ---------- Opening a channel ----------

  function Opened(l: Limits, nextId: Id): State { Quiet(l, nextId, map[], map[1 := NewChannel(1, INITIAL_CREDITS, l)], multiset{}) }

  lemma OpenSends(a: Limits, endpoint: Bytes)
    requires a.Valid() && 17 + |endpoint| <= a.maxFrameSize
    ensures OpenChannel(Quiet(a, 1, map[], map[], multiset{}), endpoint)
            == Quiet(a, 2, map[1 := false], map[], multiset{}).(queue := Holding(Request(1, INITIAL_FRAME_CREDIT, INITIAL_BYTE_CREDIT, endpoint)))
  {
    hide Send;
    Sends(Quiet(a, 2, map[], map[], multiset{}), Request(1, INITIAL_FRAME_CREDIT, INITIAL_BYTE_CREDIT, endpoint));
  }

  lemma RequestHeld(b: Limits, endpoint: Bytes)
    requires b.Valid() && |endpoint| <= b.maxControlPayload
    ensures Handle(Quiet(b, 1, map[], map[], multiset{}), Request(1, INITIAL_FRAME_CREDIT, INITIAL_BYTE_CREDIT, endpoint))
            == (Quiet(b, 1, map[], map[], multiset{Incoming(1, INITIAL_CREDITS)}), Requested)
  {
    hide Send;
    assert multiset{} + multiset{Incoming(1, INITIAL_CREDITS)} == multiset{Incoming(1, INITIAL_CREDITS)};
  }

  lemma AcceptSends(b: Limits)
    requires b.Valid()
    ensures AcceptChannel(Quiet(b, 1, map[], map[], multiset{Incoming(1, INITIAL_CREDITS)}), Incoming(1, INITIAL_CREDITS))
            == Opened(b, 2).(queue := Holding(Accept(1, 1, INITIAL_FRAME_CREDIT, INITIAL_BYTE_CREDIT)))
  {
    hide Send, NewChannel;
    assert multiset{Incoming(1, INITIAL_CREDITS)} - multiset{Incoming(1, INITIAL_CREDITS)} == multiset{};
    Sends(Quiet(b, 2, map[], map[], multiset{}), Accept(1, 1, INITIAL_FRAME_CREDIT, INITIAL_BYTE_CREDIT));
  }

  lemma AcceptOpens(a: Limits)
    requires a.Valid()
    ensures Handle(Quiet(a, 2, map[1 := false], map[], multiset{}), Accept(1, 1, INITIAL_FRAME_CREDIT, INITIAL_BYTE_CREDIT))
            == (Opened(a, 2), Handled)
  {
    hide Send, NewChannel;
    assert map[1 := false] - {1} == map[];
  }

  lemma LocalMove(p: Side, q: Side, v: Event, e': State)
    requires p.e.limits.Valid() && Up(p, q) && Perform(p.e, v) == e' && Plainly(v)
    ensures Act(p, q, Local(v)) == (p.(e := e'), q)
  {
    hide Perform;
  }

  predicate Plainly(v: Event) { !v.Receive? && !v.PopFrame? && !v.AcceptHeld? && !v.CleanupClosed? }

  lemma AcceptMove(p: Side, q: Side, r: Incoming, e': State)
    requires p.e.limits.Valid() && Up(p, q) && AcceptChannel(p.e, r) == e' && p.e.nextId in e'.channels && p.e.nextId !in p.e.channels
    ensures Act(p, q, Local(AcceptHeld(r)))
            == (p.(e := e', peers := p.peers[p.e.nextId := r.remote]), q.(peers := q.peers[r.remote := p.e.nextId]))
  {
    hide AcceptChannel;
  }

  /** The other side holds the request. */
  lemma Requests(a: Limits, b: Limits, endpoint: Bytes)
    requires a.Valid() && b.Valid() && 17 + |endpoint| <= a.maxFrameSize && 17 + |endpoint| <= b.maxFrameSize && |endpoint| <= b.maxControlPayload
    ensures Continue(Calmly(Quiet(a, 1, map[], map[], multiset{}), Quiet(b, 1, map[], map[], multiset{}), map[]), Opening(endpoint)[..3])
            == Asked(a, b)
  {
    hide FrameLength, Act, Handle, OpenChannel, Perform;
    var f := Request(1, INITIAL_FRAME_CREDIT, INITIAL_BYTE_CREDIT, endpoint);
    var qa, qb := Quiet(a, 1, map[], map[], multiset{}), Quiet(b, 1, map[], map[], multiset{});
    var wa, wb := Quiet(a, 2, map[1 := false], map[], multiset{}), Quiet(b, 1, map[], map[], multiset{Incoming(1, INITIAL_CREDITS)});
    var s0 := Calmly(qa, qb, map[]);
    var s1 := System(Calm(wa.(queue := Holding(f)), map[]), s0.b);
    var s2 := System(Calm(wa, map[]).(wire := [f]), s0.b);
    Sizes(endpoint, []);
    OpenSends(a, endpoint);
    RequestHeld(b, endpoint);
    Performs(qa, Event.Open(endpoint));
    LocalMove(s0.a, s0.b, Event.Open(endpoint), s1.a.e);
    Transmits(s1.a, s1.b, f);
    Delivers(s2.b, s2.a, f, wb, Requested);
    hide Quiet, Holding, Calmly, Calm;
    ThreeMoves(s0, s1, s2, Calmly(wa, wb, map[]), Opening(endpoint)[..3]);
  }

  function Asked(a: Limits, b: Limits): System {
    Calmly(Quiet(a, 2, map[1 := false], map[], multiset{}), Quiet(b, 1, map[], map[], multiset{Incoming(1, INITIAL_CREDITS)}), map[])
  }

  lemma Accepts(a: Limits, b: Limits, endpoint: Bytes)
    requires a.Valid() && b.Valid()
    ensures Continue(Asked(a, b), Opening(endpoint)[3..]) == Calmly(Opened(a, 2), Opened(b, 2), map[1 := 1])
  {
    hide FrameLength, Act, Handle, AcceptChannel, NewChannel, Perform;
    var g, r := Accept(1, 1, INITIAL_FRAME_CREDIT, INITIAL_BYTE_CREDIT), Incoming(1, INITIAL_CREDITS);
    var wa := Quiet(a, 2, map[1 := false], map[], multiset{});
    var s3 := Asked(a, b);
    var s4 := System(Calm(wa, map[1 := 1]), Calm(Opened(b, 2).(queue := Holding(g)), map[1 := 1]));
    var s5 := System(s4.a, Calm(Opened(b, 2), map[1 := 1]).(wire := [g]));
    Sizes([], []);
    AcceptSends(b);
    AcceptOpens(a);
    AcceptMove(s3.b, s3.a, r, s4.b.e);
    Transmits(s4.b, s4.a, g);
    Delivers(s5.a, s5.b, g, Opened(a, 2), Handled);
    hide Quiet, Holding, Calmly, Opened, Calm;
    ThreeMoves(s3, s4, s5, Calmly(Opened(a, 2), Opened(b, 2), map[1 := 1]), Opening(endpoint)[3..]);
  }

  lemma Opens(a: Limits, b: Limits, endpoint: Bytes)
    requires a.Valid() && b.Valid() && 17 + |endpoint| <= a.maxFrameSize && 17 + |endpoint| <= b.maxFrameSize && |endpoint| <= b.maxControlPayload
    ensures Continue(Calmly(Quiet(a, 1, map[], map[], multiset{}), Quiet(b, 1, map[], map[], multiset{}), map[]), Opening(endpoint))
            == Calmly(Opened(a, 2), Opened(b, 2), map[1 := 1])
  {
    hide Continue, Opened;
    Requests(a, b, endpoint);
    Accepts(a, b, endpoint);
    assert Opening(endpoint) == Opening(endpoint)[..3] + Opening(endpoint)[3..];
    hide Opening;
    ContinueJoin(Calmly(Quiet(a, 1, map[], map[], multiset{}), Quiet(b, 1, map[], map[], multiset{}), map[]),
                 Opening(endpoint)[..3], Opening(endpoint)[3..]);
  }

  lemma ThreeMoves(s0: System, s1: System, s2: System, s3: System, ms: seq<Move>)
    requires |ms| == 3 && ValidLimits(s0) && ValidLimits(s1) && ValidLimits(s2)
    requires Multiplex.Step(s0, ms[0]) == s1 && Multiplex.Step(s1, ms[1]) == s2 && Multiplex.Step(s2, ms[2]) == s3
    ensures ValidLimits(s3) && Continue(s0, ms) == s3
  {
    hide Multiplex.Step;
    assert ms == [ms[0]] + ([ms[1]] + ([ms[2]] + []));
    Continues(s0, ms[0], s1, [ms[1]] + ([ms[2]] + []));
    Continues(s1, ms[1], s2, [ms[2]] + []);
    Continues(s2, ms[2], s3, []);
  }

  // ---------- Carrying data ----------

  lemma Writes(a: Limits, buf: Bytes)
    requires a.Valid() && 0 < |buf| <= INITIAL_BYTE_CREDIT
    ensures var e := Write(Opened(a, 2), 1, buf);
            e == Opened(a, 2).(channels := map[1 := NewChannel(1, INITIAL_CREDITS, a).(sender := Loaded(buf))])
  {
    assert [] + buf == buf && buf[..|buf|] == buf;
    var c := NewChannel(1, INITIAL_CREDITS, a);
    assert map[1 := c][1 := c.(sender := Loaded(buf))] == map[1 := c.(sender := Loaded(buf))];
  }

  /** A new sender half with its first chunk. */
  function Loaded(buf: Bytes): Sender { NewSender(INITIAL_CREDITS).(pending := Some(buf), accepted := buf) }

  /** Both sides after the data arrived. */
  function SentSide(a: Limits, buf: Bytes): State {
    Opened(a, 2).(channels := map[1 := NewChannel(1, INITIAL_CREDITS, a).(sender := Drained(buf))])
  }

  function Drained(buf: Bytes): Sender
  {
    Loaded(buf).(pending := None, credit := Credits(INITIAL_FRAME_CREDIT - 1, if |buf| <= INITIAL_BYTE_CREDIT then INITIAL_BYTE_CREDIT - |buf| else 0))
  }

  function GotSide(b: Limits, buf: Bytes): State
    requires |buf| <= INITIAL_BYTE_CREDIT
  {
    var c := NewChannel(1, INITIAL_CREDITS, b);
    Opened(b, 2).(channels := map[1 := c.(receiver := Store(c.receiver, buf))])
  }

  lemma FlushesChunk(a: Limits, buf: Bytes, c: Channel)
    requires a.Valid() && 0 < |buf| <= INITIAL_BYTE_CREDIT
    requires c == NewChannel(1, INITIAL_CREDITS, a).(sender := Loaded(buf))
    ensures Flush(Opened(a, 2).(channels := map[1 := c]), 1).0 == SentSide(a, buf).(queue := Holding(Data(1, buf)))
  {
    assert [] + [Data(1, buf)] == [Data(1, buf)];
    assert map[1 := c][1 := c.(sender := Drained(buf))] == map[1 := c.(sender := Drained(buf))];
  }

  lemma Stores(b: Limits, buf: Bytes)
    requires b.Valid() && 0 < |buf| <= INITIAL_BYTE_CREDIT
    ensures Handle(Opened(b, 2), Data(1, buf)) == (GotSide(b, buf), Handled)
  {
    hide Store;
    var c := NewChannel(1, INITIAL_CREDITS, b);
    assert map[1 := c][1 := c.(receiver := Store(c.receiver, buf))] == map[1 := c.(receiver := Store(c.receiver, buf))];
  }

  lemma Reads(b: Limits, buf: Bytes)
    requires b.Valid() && 0 < |buf| <= INITIAL_BYTE_CREDIT / 2
    ensures var e := NextChunk(GotSide(b, buf), 1, false, false);
            && e == Opened(b, 2).(channels := e.channels) && e.channels.Keys == {1}
            && var e' := Read(e, 1, |buf|).0;
               && e' == Opened(b, 2).(channels := e'.channels) && e'.channels.Keys == {1} && e'.channels[1].remote == 1
               && e'.channels[1].receiver.taken == buf
  {
    assert [] + [buf] == [buf] && [] + buf == buf && buf[..|buf|] == buf;
  }

  lemma DataMoves(a: Limits, b: Limits, buf: Bytes)
    requires a.Valid() && b.Valid() && 0 < |buf| <= INITIAL_BYTE_CREDIT
    ensures Continue(Calmly(Opened(a, 2), Opened(b, 2), map[1 := 1]), Sending(buf)[..4])
            == System(Calm(SentSide(a, buf), map[1 := 1]), Calm(GotSide(b, buf), map[1 := 1]))
  {
    hide FrameLength, Act, Handle, Perform, Store, Flush, Write;
    var f, peers := Data(1, buf), map[1 := 1];
    var c := NewChannel(1, INITIAL_CREDITS, a).(sender := Loaded(buf));
    var wa := Opened(a, 2).(channels := map[1 := c]);
    Sizes([], buf);
    Writes(a, buf);
    FlushesChunk(a, buf, c);
    Stores(b, buf);
    var s0 := Calmly(Opened(a, 2), Opened(b, 2), peers);
    var s1 := System(Calm(wa, peers), s0.b);
    var s2 := System(Calm(SentSide(a, buf).(queue := Holding(f)), peers), s0.b);
    var s3 := System(Calm(SentSide(a, buf), peers).(wire := [f]), s0.b);
    var s4 := System(Calm(SentSide(a, buf), peers), Calm(GotSide(b, buf), peers));
    Performs(s0.a.e, WriteBytes(1, buf));
    LocalMove(s0.a, s0.b, WriteBytes(1, buf), wa);
    Performs(wa, FlushChunk(1));
    LocalMove(s1.a, s1.b, FlushChunk(1), s2.a.e);
    Transmits(s2.a, s2.b, f);
    Delivers(s3.b, s3.a, f, GotSide(b, buf), Handled);
    hide Quiet, Holding, Calmly, Opened, Calm, NewChannel, Loaded, SentSide, GotSide;
    FourMoves(s0, s1, s2, s3, s4, Sending(buf)[..4]);
  }

  lemma ReadMoves(a: Limits, b: Limits, buf: Bytes)
    requires a.Valid() && b.Valid() && 0 < |buf| <= INITIAL_BYTE_CREDIT / 2
    ensures var s := Continue(System(Calm(SentSide(a, buf), map[1 := 1]), Calm(GotSide(b, buf), map[1 := 1])), Sending(buf)[4..]);
            && s.a == Calm(SentSide(a, buf), map[1 := 1]) && Multiplex.Open(s) && 1 in s.b.e.channels
            && s.b.e.channels[1].receiver.taken == buf
  {
    hide FrameLength, Act, Handle, Perform, NextChunk, Read, Store, Loaded;
    var wb := GotSide(b, buf);
    Reads(b, buf);
    var nb := NextChunk(wb, 1, false, false);
    var rb := Read(nb, 1, |buf|).0;
    var s4 := System(Calm(SentSide(a, buf), map[1 := 1]), Calm(wb, map[1 := 1]));
    var s5 := System(s4.a, Calm(nb, map[1 := 1]));
    var s6 := System(s4.a, Calm(rb, map[1 := 1]));
    Performs(wb, PullChunk(1, false, false));
    LocalMove(s4.b, s4.a, PullChunk(1, false, false), nb);
    Performs(nb, ReadBytes(1, |buf|));
    LocalMove(s5.b, s5.a, ReadBytes(1, |buf|), rb);
    var ms := Sending(buf)[4..];
    assert ms == [ms[0]] + ([ms[1]] + []);
    Continues(s4, ms[0], s5, [ms[1]] + []);
    Continues(s5, ms[1], s6, []);
  }

  lemma {:induction false} ContinueJoin(s: System, x: seq<Move>, y: seq<Move>)
    requires ValidLimits(s)
    ensures Continue(s, x + y) == Continue(Continue(s, x), y)
    decreases |x|
  {
    hide Multiplex.Step;
    if x == [] {
      assert x + y == y;
    } else {
      assert (x + y)[1..] == x[1..] + y;
      ContinueJoin(Multiplex.Step(s, x[0]), x[1..], y);
    }
  }

  lemma Carries(a: Limits, b: Limits, buf: Bytes)
    requires a.Valid() && b.Valid() && 0 < |buf| <= INITIAL_BYTE_CREDIT / 2
    ensures var s := Continue(Calmly(Opened(a, 2), Opened(b, 2), map[1 := 1]), Sending(buf));
            && Multiplex.Open(s) && Connected(s.a, s.b, 1) && s.a.e.channels[1].remote == 1
            && s.a.e.channels[1].sender.accepted == buf == s.b.e.channels[1].receiver.taken
  {
    hide Multiplex.Step, Continue, Store, FrameLength;
    assert Sending(buf) == Sending(buf)[..4] + Sending(buf)[4..];
    ContinueJoin(Calmly(Opened(a, 2), Opened(b, 2), map[1 := 1]), Sending(buf)[..4], Sending(buf)[4..]);
    DataMoves(a, b, buf);
    ReadMoves(a, b, buf);
  }

  /** For any limits of the two sides: fresh endpoints greet each other, open a channel, and the
      reader takes exactly the bytes that were written. */
  lemma FreshEndpointsTalk(a: Limits, b: Limits, endpoint: Bytes, buf: Bytes)
    requires a.Valid() && b.Valid() && |endpoint| <= b.maxControlPayload
    requires 17 + |endpoint| <= a.maxFrameSize && 17 + |endpoint| <= b.maxFrameSize
    requires 0 < |buf| <= INITIAL_BYTE_CREDIT / 2
    ensures var s := Multiplex.Run(a, b, Greeting() + Opening(endpoint) + Sending(buf));
            && Multiplex.Open(s) && Connected(s.a, s.b, 1) && s.a.e.channels[1].remote == 1
            && s.a.e.channels[1].sender.accepted == buf == s.b.e.channels[1].receiver.taken
  {
    hide *;
    assert [] + Greeting() == Greeting();
    RunContinues(a, b, [], Greeting());
    StartsFresh(a, b);
    RunContinues(a, b, Greeting(), Opening(endpoint));
    RunContinues(a, b, Greeting() + Opening(endpoint), Sending(buf));
    Greets(a, b);
    Opens(a, b, endpoint);
    Carries(a, b, buf);
  }

  lemma StartsFresh(a: Limits, b: Limits)
    requires a.Valid() && b.Valid()
    ensures Multiplex.Run(a, b, []) == Multiplex.Start(a, b)
  {
    hide Multiplex.Step;
  }

  lemma FourMoves(s0: System, s1: System, s2: System, s3: System, s4: System, ms: seq<Move>)
    requires |ms| == 4 && ValidLimits(s0) && ValidLimits(s1) && ValidLimits(s2) && ValidLimits(s3)
    requires Multiplex.Step(s0, ms[0]) == s1 && Multiplex.Step(s1, ms[1]) == s2
    requires Multiplex.Step(s2, ms[2]) == s3 && Multiplex.Step(s3, ms[3]) == s4
    ensures ValidLimits(s4) && Continue(s0, ms) == s4
  {
    hide Multiplex.Step;
    assert ms == [ms[0]] + ([ms[1]] + ([ms[2]] + ([ms[3]] + [])));
    Continues(s0, ms[0], s1, [ms[1]] + ([ms[2]] + ([ms[3]] + [])));
    Continues(s1, ms[1], s2, [ms[2]] + ([ms[3]] + []));
    Continues(s2, ms[2], s3, [ms[3]] + []);
    Continues(s3, ms[3], s4, []);
  }
}
