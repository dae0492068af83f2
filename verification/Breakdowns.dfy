/** Two conforming endpoints whose connection does not last. */
module Breakdowns {
  import opened Wrappers
  import opened FrameCodec
  import opened ConnectionLimits
  import opened OutgoingQueue
  import opened ReceiveWindow
  import opened Endpoint
  import opened EndpointSafety
  import opened Pipes
  import opened System
  import opened Multiplex
  import opened Handshake
  import opened Endings

  // ---------- A reason that is too long ----------

  /** The request is rejected, and the rejection is on its way. */
  function Rejecting(reason: Bytes): seq<Move> {
    [Move(false, Local(RejectHeld(Incoming(1, INITIAL_CREDITS), reason))), Move(false, Transmit)]
  }

  function Refused(a: Limits, b: Limits, reason: Bytes): System {
    System(Calm(Quiet(a, 2, map[1 := false], map[], multiset{}), map[]),
           Calm(Quiet(b, 1, map[], map[], multiset{}), map[]).(wire := [Reject(1, reason)]))
  }

  lemma RejectSends(b: Limits, reason: Bytes)
    requires b.Valid() && 9 + |reason| <= b.maxFrameSize
    ensures RejectIncoming(Quiet(b, 1, map[], map[], multiset{Incoming(1, INITIAL_CREDITS)}), Incoming(1, INITIAL_CREDITS), reason)
            == Quiet(b, 1, map[], map[], multiset{}).(queue := Holding(Reject(1, reason)))
  {
    hide Send;
    assert multiset{Incoming(1, INITIAL_CREDITS)} - multiset{Incoming(1, INITIAL_CREDITS)} == multiset{};
    Sends(Quiet(b, 1, map[], map[], multiset{}), Reject(1, reason));
  }

  lemma Refuses(a: Limits, b: Limits, reason: Bytes)
    requires a.Valid() && b.Valid() && 9 + |reason| <= b.maxFrameSize
    ensures Continue(Asked(a, b), Rejecting(reason)) == Refused(a, b, reason)
  {
    hide FrameLength, Act, RejectIncoming, Perform;
    var r, f, ms := Incoming(1, INITIAL_CREDITS), Reject(1, reason), Rejecting(reason);
    var s0, s2 := Asked(a, b), Refused(a, b, reason);
    var s1 := System(s0.a, s2.b.(e := s2.b.e.(queue := Holding(f)), wire := []));
    RejectSends(b, reason);
    Performs(s0.b.e, RejectHeld(r, reason));
    LocalMove(s0.b, s0.a, RejectHeld(r, reason), s1.b.e);
    Transmits(s1.b, s1.a, f);
    assert ms == [ms[0]] + ([ms[1]] + []);
    hide Quiet, Holding, Calmly, Calm, Asked, Refused;
    Continues(s0, ms[0], s1, [ms[1]] + []);
    Continues(s1, ms[1], s2, []);
  }

  /** A caller may reject a request with any reason. One that is longer than the opener reads ends the
      connection when it arrives, although both sides follow the protocol and may have equal limits. */
  lemma LongReasonEnds(a: Limits, b: Limits, reason: Bytes)
    requires a.Valid() && b.Valid() && |reason| > a.maxControlPayload && 9 + |reason| <= b.maxFrameSize
    ensures var ms := Greeting() + Opening([])[..3] + Rejecting(reason);
            && Multiplex.Open(Multiplex.Run(a, b, ms))
            && !Multiplex.Open(Multiplex.Step(Multiplex.Run(a, b, ms), Move(true, Deliver)))
  {
    hide Limits.Valid, Multiplex.Run, Multiplex.Start, Multiplex.Step, Multiplex.Open, Continue, Greeting, Quiet, Calmly, Asked, Refused, Rejecting, Ends;
    var ms := Greeting() + Opening([])[..3] + Rejecting(reason);
    assert [] + Greeting() == Greeting();
    RoomForRequest(a);
    RoomForRequest(b);
    RunContinues(a, b, [], Greeting());
    StartsFresh(a, b);
    RunContinues(a, b, Greeting(), Opening([])[..3]);
    RunContinues(a, b, Greeting() + Opening([])[..3], Rejecting(reason));
    Handshake.Greets(a, b);
    Requests(a, b, []);
    Refuses(a, b, reason);
    RefusalUnread(a, b, reason);
    ConnectionEnds(a, b, ms, Move(true, Deliver));
  }

  lemma RoomForRequest(l: Limits)
    requires l.Valid()
    ensures 17 <= l.maxFrameSize
  {
  }

  lemma RefusalUnread(a: Limits, b: Limits, reason: Bytes)
    requires |reason| > a.maxControlPayload
    ensures var s := Refused(a, b, reason); Multiplex.Open(s) && Ends(Mine(s, true), Theirs(s, true), Deliver)
  {
    hide HasRoom, FrameLength;
  }

  // ---------- Too many cancelled opens ----------

  function FirstIds(n: nat): seq<Id> { seq(n, i => i + 1) }

  /** So many opens were cancelled, and none was answered. */
  function Abandoned(l: Limits, n: nat): State { State(l, n + 1, map[], FirstIds(n), map[], [], multiset{}, IDLE, false, false) }

  function Abandoning(id: Id): seq<Move> {
    [Move(true, Local(Event.Open([]))), Move(true, Transmit), Move(true, Local(Cancel(id))), Move(true, Local(Cleanup(id)))]
  }

  function Abandonings(n: nat): seq<Move> {
    if n == 0 then [Move(true, Transmit)] else Abandonings(n - 1) + Abandoning(n)
  }

  /** One more open was cancelled and is about to be cleaned up. */
  function Doomed(l: Limits, n: nat): State { Abandoned(l, n).(nextId := n + 2, pending := map[n + 1 := true]) }

  lemma OpenAgain(l: Limits, n: nat)
    requires l.Valid()
    ensures OpenChannel(Abandoned(l, n), [])
            == Doomed(l, n).(pending := map[n + 1 := false], queue := Holding(Request(n + 1, INITIAL_FRAME_CREDIT, INITIAL_BYTE_CREDIT, [])))
    ensures CancelOpen(Doomed(l, n).(pending := map[n + 1 := false]), n + 1) == Doomed(l, n)
    ensures CleanupCancelled(Doomed(l, n), n + 1)
            == if n >= l.maxTombstones then Doomed(l, n).(pending := map[], closing := true) else Abandoned(l, n + 1)
  {
    hide Send;
    Sends(Abandoned(l, n).(nextId := n + 2), Request(n + 1, INITIAL_FRAME_CREDIT, INITIAL_BYTE_CREDIT, []));
    assert map[n + 1 := false][n + 1 := true] == map[n + 1 := true];
    assert map[n + 1 := true] - {n + 1} == map[];
    assert FirstIds(n) + [n + 1] == FirstIds(n + 1);
  }

  lemma OpensAndCancels(s: System, l: Limits, n: nat) returns (t: System)
    requires ValidLimits(s) && s.a.e == Abandoned(l, n) && !s.b.e.closing
    ensures ValidLimits(t) && Continue(s, Abandoning(n + 1)[..3]) == t && t.a.e == Doomed(l, n) && t.b == s.b
  {
    hide FrameLength, Act, OpenChannel, CancelOpen, Perform, Abandoned, Doomed;
    var f := Request(n + 1, INITIAL_FRAME_CREDIT, INITIAL_BYTE_CREDIT, []);
    AbandonedQueue(l, n);
    OpenAgain(l, n);
    var e := Doomed(l, n).(pending := map[n + 1 := false]);
    var s1 := s.(a := s.a.(e := e.(queue := Holding(f))));
    var s2 := s.(a := s.a.(e := e, wire := s.a.wire + [f]));
    t := s2.(a := s2.a.(e := Doomed(l, n)));
    Performs(s.a.e, Event.Open([]));
    LocalMove(s.a, s.b, Event.Open([]), s1.a.e);
    Transmits(s1.a, s1.b, f);
    Performs(e, Cancel(n + 1));
    LocalMove(s2.a, s2.b, Cancel(n + 1), t.a.e);
    hide Holding;
    ThreeMoves(s, s1, s2, t, Abandoning(n + 1)[..3]);
  }

  lemma AbandonedQueue(l: Limits, n: nat)
    ensures Abandoned(l, n).limits == Doomed(l, n).limits == l && !Abandoned(l, n).closing && !Doomed(l, n).closing
    ensures Doomed(l, n).queue == IDLE
  {
  }

  /** As many cancelled opens as there may be tombstones. */
  lemma {:induction false} Abandons(a: Limits, b: Limits, n: nat)
    requires a.Valid() && b.Valid() && n <= a.maxTombstones
    ensures var s := Multiplex.Run(a, b, Abandonings(n)); s.a.e == Abandoned(a, n) && s.b == Multiplex.Start(a, b).b
  {
    hide Multiplex.Run, Multiplex.Step, Continue, CleanupCancelled, Perform, Abandoned, Doomed;
    if n == 0 {
      StartsAbandoned(a, b);
    } else {
      Abandons(a, b, n - 1);
      var s := Multiplex.Run(a, b, Abandonings(n - 1));
      FreshUp(b);
      var t := OpensAndCancels(s, a, n - 1);
      AbandonedQueue(a, n - 1);
      OpenAgain(a, n - 1);
      Performs(t.a.e, Cleanup(n));
      LocalMove(t.a, t.b, Cleanup(n), Abandoned(a, n));
      var u := t.(a := t.a.(e := Abandoned(a, n)));
      assert Multiplex.Step(t, Move(true, Local(Cleanup(n)))) == u by { StepIs(t, Local(Cleanup(n)), u); }
      RunContinues(a, b, Abandonings(n - 1), Abandoning(n));
      assert Abandoning(n) == Abandoning(n)[..3] + ([Abandoning(n)[3]] + []);
      ContinueJoin(s, Abandoning(n)[..3], [Abandoning(n)[3]] + []);
      Continues(t, Abandoning(n)[3], u, []);
      NoMoves(u);
    }
  }

  lemma NoMoves(s: System)
    requires ValidLimits(s)
    ensures Continue(s, []) == s
  {
  }

  lemma StepIs(s: System, action: Action, t: System)
    requires ValidLimits(s) && Act(s.a, s.b, action) == (t.a, t.b)
    ensures Multiplex.Step(s, Move(true, action)) == t
  {
    hide Act;
  }

  lemma FreshUp(l: Limits)
    ensures !Fresh(l).closing
  {
  }

  lemma StartsAbandoned(a: Limits, b: Limits)
    requires a.Valid() && b.Valid()
    ensures var s := Multiplex.Run(a, b, Abandonings(0)); s.a.e == Abandoned(a, 0) && s.b == Multiplex.Start(a, b).b
  {
    var s := Multiplex.Start(a, b);
    hide FrameLength, Act;
    assert [Move(true, Transmit)][..0] == [];
    Transmits(s.a, s.b, HelloFrame());
    assert FirstIds(0) == [];
  }

  /** Whatever the limits: one more cancelled open than this side remembers ends the connection, with
      nothing received and nothing queued. */
  lemma CancelledOpensEnd(a: Limits, b: Limits)
    requires a.Valid() && b.Valid()
    ensures var n := a.maxTombstones;
            var s := Multiplex.Run(a, b, Abandonings(n) + Abandoning(n + 1)[..3]);
            && Multiplex.Open(s) && s.a.e.queue.frames == [] == s.b.wire
            && !Multiplex.Open(Multiplex.Step(s, Abandoning(n + 1)[3]))
  {
    hide Multiplex.Run, Multiplex.Step, Continue, CleanupCancelled, Perform, Doomed, Ends;
    var n := a.maxTombstones;
    Abandons(a, b, n);
    FreshUp(b);
    var s := Multiplex.Run(a, b, Abandonings(n));
    var t := OpensAndCancels(s, a, n);
    RunContinues(a, b, Abandonings(n), Abandoning(n + 1)[..3]);
    AbandonedQueue(a, n);
    ConnectionEnds(a, b, Abandonings(n) + Abandoning(n + 1)[..3], Abandoning(n + 1)[3]);
    OneTooMany(a, t, n);
  }

  lemma OneTooMany(l: Limits, s: System, n: nat)
    requires s.a.e == Doomed(l, n) && n == l.maxTombstones
    ensures Ends(s.a, s.b, Local(Cleanup(n + 1)))
  {
    hide HasRoom;
  }
}
