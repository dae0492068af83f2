/** Opening channels: requests, answers, cancellation. */
module SystemOpening {
  import opened Wrappers
  import opened FrameCodec
  import opened ConnectionLimits
  import opened OutgoingQueue
  import opened ReceiveWindow
  import opened Endpoint
  import opened EndpointSafety
  import opened Link
  import opened LinkSteps
  import opened LinkUpdates
  import opened Pipes
  import opened System
  import opened SystemSteps
  import opened SystemDelivery

  // ---------- Nobody concerned ----------

  /** Neither endpoint nor pipe changed for any id. */
  lemma Unconcerned(p: Side, q: Side, p': Side, q': Side)
    requires PairInv(p, q) && LocalInv(p'.e) && LocalInv(q'.e)
    requires NearSameBut(p, p', None) && NearSameBut(q, q', None) && SameBut(p.e, p'.e, None) && SameBut(q.e, q'.e, None)
    requires PipeSameBut(Pipe(p), Pipe(p'), None, None) && PipeSameBut(Pipe(q), Pipe(q'), None, None)
    requires p'.e.held == p.e.held && q'.e.held == q.e.held && p'.peers == p.peers && q'.peers == q.peers
    requires Greets(Pipe(p'), q'.e.helloReceived) && Greets(Pipe(q'), p'.e.helloReceived)
    ensures PairInv(p', q')
  {
    PairParts(p, q);
    hide LinkInv, ViewOf, LocalInv, PairInv, Mirrored, Greets, Pipe, NearOf, FarOf, Select, NearSameBut, SameBut, PipeSameBut;
    SamePeers(p, q, p', q');
    SameHeld(p.e, p'.e);
    SameHeld(q.e, q'.e);
    assert Confined(p, q, p', q', None, None);
    hide Confined, HeldInitial;
    Settle(p, q, p', q', None, None);
  }

  // ---------- Answers ----------

  lemma CountAnswers(fs: seq<Frame>)
    requires fs != [] && (fs[0].Accept? || fs[0].Reject?)
    ensures Total(fs).answers == 1 + Total(fs[1..]).answers && Total(fs).credit == Total(fs[1..]).credit
  {
    TotalHead(fs);
    AnswerPlus(fs[0], Total(fs[1..]));
    hide *;
  }

  lemma AnswerPlus(f: Frame, t: Load)
    requires f.Accept? || f.Reject?
    ensures Plus(LoadOf(f), t).answers == 1 + t.answers && Plus(LoadOf(f), t).credit == t.credit
  {
  }

  lemma Parts(v: View)
    requires LinkInv(v)
    ensures Matched(v.requests, v.heldByPeer, Total(v.inbound).answers, v.near.awaiting) && Phased(v.id, v.near, v.inbound)
    ensures v.near.peer.None? ==> v.far.rcv.None? && v.outbound == []
  {
    hide Matched, Phased, DirectionInv, Total;
  }

  lemma WithoutPeer(v: View)
    requires Matched(v.requests, v.heldByPeer, Total(v.inbound).answers, v.near.awaiting) && Phased(v.id, v.near, v.inbound)
    requires v.near.peer.None? && v.far.rcv.None? && v.outbound == []
    ensures LinkInv(v)
  {
    hide Matched, Phased, DirectionInv, Total;
  }

  /** What a view must be like for an accept to be its oldest inbound frame. */
  lemma AcceptedView(v: View)
    requires LinkInv(v) && v.inbound != [] && v.inbound[0].Accept?
    ensures v.near.peer.Some? && v.inbound[0] == Accept(v.id, v.near.peer.value, INITIAL_FRAME_CREDIT, INITIAL_BYTE_CREDIT)
    ensures v.near.awaiting == 1 && v.requests == [] && v.heldByPeer == 0 && Total(v.inbound[1..]).answers == 0
    ensures v.near.snd.None? && v.near.remote.None? && v.near.grave.None? && v.near.dead == 0 && !v.near.unallocated
  {
    CountAnswers(v.inbound);
    hide Total, DirectionInv;
  }

  lemma NothingAnswers()
    ensures Total([]) == NOTHING
  {
  }

  lemma RejectedParts(v: View)
    requires Matched(v.requests, v.heldByPeer, Total(v.inbound).answers, v.near.awaiting) && Phased(v.id, v.near, v.inbound)
    requires v.inbound != [] && v.inbound[0].Reject? && Total(v.inbound).answers >= 1
    ensures v.near.peer.None? && v.inbound[1..] == []
    ensures v.near.awaiting == 1 && v.requests == [] && v.heldByPeer == 0 && v.near.snd.None? && !v.near.unallocated
    ensures Matched(v.requests, v.heldByPeer, 0, 0) && Phased(v.id, v.near.(awaiting := 0), v.inbound[1..])
  {
    hide Total;
  }

  lemma RejectedView(v: View)
    requires LinkInv(v) && v.inbound != [] && v.inbound[0].Reject?
    ensures v.near.peer.None? && v.inbound[1..] == []
    ensures v.near.awaiting == 1 && v.requests == [] && v.heldByPeer == 0 && v.near.snd.None? && !v.near.unallocated
    ensures LinkInv(v.(inbound := v.inbound[1..], near := v.near.(awaiting := 0)))
  {
    hide Total, LinkInv, Matched, Phased;
    CountAnswers(v.inbound);
    Parts(v);
    RejectedParts(v);
    NothingAnswers();
    WithoutPeer(v.(inbound := v.inbound[1..], near := v.near.(awaiting := 0)));
  }

  /** The answer was the only one, and the sender half may start. */
  lemma AnsweredView(v: View, n: Near)
    requires LinkInv(v) && v.inbound != [] && v.inbound[0].Accept?
    requires n == v.near.(snd := n.snd, remote := n.remote, awaiting := 0, dead := n.dead)
    requires n.snd.Some? <==> n.remote.Some?
    requires if n.snd.Some? then n.remote == n.peer && n.dead == 0 else n.dead <= 1
    ensures Phased(v.id, n, v.inbound[1..]) && Matched(v.requests, v.heldByPeer, Total(v.inbound[1..]).answers, n.awaiting)
  {
    hide LinkInv, Total, Phased;
    AcceptedView(v);
    AnsweredPhase(v.id, n, v.inbound[1..]);
  }

  lemma AnsweredPhase(id: Id, n: Near, inbound: seq<Frame>)
    requires n.peer.Some? && n.awaiting == 0 && n.grave.None? && !n.unallocated && n.dead <= 1
    requires if n.snd.Some? then n.remote == n.peer && n.dead == 0 else n.remote.None?
    ensures Phased(id, n, inbound)
  {
  }

  lemma OpenedNearLink(v: View)
    requires LinkInv(v) && v.inbound != [] && v.inbound[0].Accept?
    ensures LinkInv(v.(near := v.near.(snd := Some(NewSender(INITIAL_CREDITS)), remote := v.near.peer, awaiting := 0),
                       inbound := v.inbound[1..]))
  {
    AcceptedView(v);
    CountAnswers(v.inbound);
    hide Matched, Phased;
    DirectionOf(v);
    NoDataNoPayload(v.outbound);
    hide LinkInv, DirectionInv, Total;
    OpenedNear(v.near, v.far, Total(v.outbound), Total(v.inbound).credit);
    var n := v.near.(snd := Some(NewSender(INITIAL_CREDITS)), remote := v.near.peer, awaiting := 0);
    AnsweredView(v, n);
    Update(v, n, v.far, v.outbound, v.inbound[1..]);
  }

  lemma OpenedFarLink(u: View, l: Limits)
    requires l.Valid() && LinkInv(u) && u.near.peer.Some? && u.outbound != [] && u.outbound[0].Accept?
    requires u.far.rcv.None? && u.far.awaiting > 0
    ensures LinkInv(u.(far := Far(Some(NewReceiver(l)), 0, u.far.tomb), outbound := u.outbound[1..]))
  {
    OutboundPop(u);
    var u1 := u.(outbound := u.outbound[1..]);
    DirectionOf(u1);
    OpenedFar(l, u1.near, u1.far, Total(u1.outbound), Total(u1.inbound).credit);
    hide LinkInv, DirectionInv, Total, Phased;
    ReceiverUpdate(u1, Far(Some(NewReceiver(l)), 0, u.far.tomb), u1.inbound);
  }

  lemma LateNearLink(v: View, close: Frame, closed: Frame)
    requires LinkInv(v) && v.inbound != [] && v.inbound[0].Accept? && close.Close? && closed.Closed?
    ensures LinkInv(v.(near := v.near.(awaiting := 0, dead := 1), inbound := v.inbound[1..], outbound := v.outbound + [close] + [closed]))
  {
    hide LinkInv, DirectionInv, Total, Matched, Phased, Plus, LoadOf;
    AcceptedView(v);
    CountAnswers(v.inbound);
    OutboundPush(v, close);
    var v1 := v.(outbound := v.outbound + [close]);
    DirectionOf(v1);
    TotalPush(v1.outbound, closed);
    LateNear(v1.near, v1.far, Total(v1.outbound), Total(v1.inbound).credit, closed);
    var n := v.near.(awaiting := 0, dead := 1);
    AnsweredView(v, n);
    Update(v1, n, v1.far, v1.outbound + [closed], v.inbound[1..]);
  }

  lemma LateFarLink(u: View, close: Frame, closed: Frame)
    requires LinkInv(u) && u.near.peer.Some? && u.outbound != [] && u.outbound[0].Accept? && close.Close? && closed.Closed?
    requires u.far.rcv.None? && u.far.awaiting > 0
    ensures LinkInv(u.(far := Far(None, 0, Some(INITIAL_CREDITS)), outbound := u.outbound[1..], inbound := u.inbound + [close] + [closed]))
  {
    OutboundPop(u);
    var u1 := u.(outbound := u.outbound[1..]);
    InboundPush(u1, close);
    var u2 := u1.(inbound := u.inbound + [close]);
    InboundPush(u2, closed);
    var u3 := u2.(inbound := u2.inbound + [closed]);
    DirectionOf(u3);
    LateFar(u3.near, u3.far, Total(u3.outbound), Total(u3.inbound).credit);
    hide LinkInv, DirectionInv, Total, Phased;
    ReceiverUpdate(u3, Far(None, 0, Some(INITIAL_CREDITS)), u3.inbound);
  }

  // ---------- An accept arrives ----------

  lemma AcceptHead(p: Side, q: Side, z: Id)
    requires PairInv(p, q) && q.wire != [] && q.wire[0].Accept? && q.wire[0].receiver == z
    ensures z in p.peers && q.wire[0] == Accept(z, p.peers[z], INITIAL_FRAME_CREDIT, INITIAL_BYTE_CREDIT)
    ensures var v := ViewOf(p, q, z); LinkInv(v) && v.inbound != [] && v.inbound[0] == q.wire[0]
    ensures z !in p.e.channels && z !in p.graves && Awaiting(p.e, z) == 1 && CountTombstones(p.e.tombstones, z) == 0
    ensures FarOf(p.e, z).rcv.None? && FarOf(p.e, z).awaiting == 1
  {
    HeadView(p, q, z);
    AcceptedView(ViewOf(p, q, z));
    hide LinkInv, PairInv, Select, Pipe, FindTombstone, CountTombstones, Awaiting;
  }

  lemma AwaitedOnce(e: State, z: Id)
    requires Awaiting(e, z) == 1
    ensures z in e.pending <==> z !in e.cancelled
  {
    assert z in e.cancelled <==> multiset(e.cancelled)[z] > 0;
  }

  lemma OpenedSame(p: Side, p': Side, z: Id, c: Channel)
    requires z in p.e.pending && p' == p.(e := p.e.(pending := p.e.pending - {z}, channels := p.e.channels[z := c]))
    ensures SameBut(p.e, p'.e, Some(z)) && NearSameBut(p, p', Some(z)) && Pipe(p') == Pipe(p)
  {
  }

  lemma OpenedViews(p: Side, q: Side, p': Side, z: Id, c: Channel)
    requires z in p.peers && p.peers[z] in q.peers && q.peers[p.peers[z]] == z && q.wire != []
    requires z in p.e.pending && Awaiting(p.e, z) == 1 && c.remote == p.peers[z]
    requires p' == p.(e := p.e.(pending := p.e.pending - {z}, channels := p.e.channels[z := c])) && Pipe(p') == Pipe(p)
    requires var v, u := ViewOf(p, q, z), ViewOf(q, p, p.peers[z]);
             && v.inbound != [] && v.inbound[1..] == Select(Pipe(Taken(q)), To(z)) && u.outbound == v.inbound
    requires Select(Pipe(Taken(q)), From(p.peers[z])) == Select(Pipe(q), From(p.peers[z]))
    ensures var v := ViewOf(p, q, z);
            ViewOf(p', Taken(q), z) == v.(near := v.near.(snd := Some(c.sender), remote := v.near.peer, awaiting := 0), inbound := v.inbound[1..])
    ensures var u := ViewOf(q, p, p.peers[z]);
            ViewOf(Taken(q), p', p.peers[z]) == u.(far := Far(Some(c.receiver), 0, u.far.tomb), outbound := u.outbound[1..])
  {
    hide Select, Pipe;
  }

  lemma AcceptPair(p: Side, q: Side, z: Id)
    requires PairInv(p, q) && z in p.e.pending && q.wire != [] && q.wire[0].Accept? && q.wire[0].receiver == z
    requires HandleAccept(p.e, q.wire[0]).1 != SlotAssertion && LocalInv(HandleAccept(p.e, q.wire[0]).0)
    ensures HandleAccept(p.e, q.wire[0]).1 == Handled
    ensures PairInv(p.(e := HandleAccept(p.e, q.wire[0]).0), Taken(q))
  {
    hide LinkInv, ViewOf, LocalInv, PairInv, Linked, Pipe, Select, CountTombstones, FindTombstone, Awaiting, FarOf;
    PairValid(p, q);
    AcceptHead(p, q, z);
    HeadView(p, q, z);
    MirrorFacts(p, q, z);
    var w := p.peers[z];
    var c := NewChannel(w, INITIAL_CREDITS, p.e.limits);
    var p' := p.(e := HandleAccept(p.e, q.wire[0]).0);
    OpenedNearLink(ViewOf(p, q, z));
    OpenedFarLink(ViewOf(q, p, w), p.e.limits);
    TakenSameBut(p, q, z, w);
    OpenedSame(p, p', z, c);
    OpenedViews(p, q, p', z, c);
    hide Greets, PipeSameBut, SameBut, NearSameBut;
    DeliveredPair(p, q, p', Taken(q), z, w);
  }

  // ---------- An accept arrives after its caller gave up ----------

  lemma {:induction false} WithoutCount(ids: seq<Id>, z: Id, x: Id)
    ensures multiset(Without(ids, z))[x] == multiset(ids)[x] - (if x == z && z in ids then 1 else 0)
  {
    if ids != [] {
      assert ids == [ids[0]] + ids[1..];
      if ids[0] != z { WithoutCount(ids[1..], z, x); }
    }
  }

  lemma {:induction false} BuryTombstone(ts: seq<Tombstone>, t: Tombstone, x: Id)
    ensures CountTombstones(ts + [t], x) == CountTombstones(ts, x) + if t.id == x then 1 else 0
    ensures FindTombstone(ts + [t], x) ==
            if FindTombstone(ts, x).Some? then FindTombstone(ts, x) else if t.id == x then Some(t.credit) else None
  {
    if ts == [] {
      assert ts + [t] == [t] && [t][1..] == [];
    } else {
      BuryTombstone(ts[1..], t, x);
      assert (ts + [t])[1..] == ts[1..] + [t];
    }
  }

  lemma {:induction false} FoundIffCounted(ts: seq<Tombstone>, x: Id)
    ensures FindTombstone(ts, x).Some? <==> CountTombstones(ts, x) > 0
  {
    if ts != [] { FoundIffCounted(ts[1..], x); }
  }

  lemma LateAcceptShape(p: Side, z: Id, f: Frame)
    requires LocalInv(p.e) && !p.e.closing && z !in p.e.pending && z in p.e.cancelled && f.Accept? && f.receiver == z
    requires !HandleAccept(p.e, f).1.Violates?
    ensures var e' := HandleAccept(p.e, f).0;
            && HandleAccept(p.e, f).1 == Handled
            && e' == p.e.(cancelled := Without(p.e.cancelled, z), tombstones := p.e.tombstones + [Tombstone(z, INITIAL_CREDITS)], queue := e'.queue)
            && Pipe(p.(e := e')) == Pipe(p) + [Close(f.sender, CancelReason())] + [Closed(f.sender, CancelReason())]
  {
    hide LocalInv, Send;
    assert p.e.limits.Valid() by { Valid(p.e); }
    var e1 := p.e.(cancelled := Without(p.e.cancelled, z));
    var f1, f2 := Close(f.sender, CancelReason()), Closed(f.sender, CancelReason());
    OnceClosing(e1, f1);
    OnceClosing(Send(e1, f1), f2);
    var p1 := p.(e := e1);
    SamePipe(p, p1);
    SendQueues(p1, f1);
    SendQueues(p1.(e := Send(e1, f1)), f2);
    SamePipe(p.(e := HandleAccept(p.e, f).0), p.(e := Send(Send(e1, f1), f2)));
    hide Pipe;
  }

  lemma OnceClosing(e: State, f: Frame)
    requires e.limits.Valid()
    ensures (e.closing ==> Send(e, f) == e) && Send(e, f).limits == e.limits
  {
  }

  lemma LateSameBut(p: Side, p': Side, z: Id, t: Tombstone)
    requires z in p.e.cancelled && t.id == z && Awaiting(p.e, z) == 1 && CountTombstones(p.e.tombstones, z) == 0
    requires p' == p.(e := p.e.(cancelled := Without(p.e.cancelled, z), tombstones := p.e.tombstones + [t], queue := p'.e.queue))
    ensures SameBut(p.e, p'.e, Some(z)) && NearSameBut(p, p', Some(z))
    ensures NearOf(p', z) == NearOf(p, z).(awaiting := 0, dead := 1) && FarOf(p'.e, z) == Far(FarOf(p.e, z).rcv, 0, Some(t.credit))
  {
    hide Without, CountTombstones, FindTombstone;
    FoundIffCounted(p.e.tombstones, z);
    forall x: Id ensures
        && Awaiting(p'.e, x) == Awaiting(p.e, x) - (if x == z then 1 else 0)
        && CountTombstones(p'.e.tombstones, x) == CountTombstones(p.e.tombstones, x) + (if x == z then 1 else 0)
        && (x != z ==> FindTombstone(p'.e.tombstones, x) == FindTombstone(p.e.tombstones, x))
    {
      WithoutCount(p.e.cancelled, z, x);
      BuryTombstone(p.e.tombstones, t, x);
    }
    BuryTombstone(p.e.tombstones, t, z);
    hide Awaiting;
  }

  /** Two frames were queued for the counterpart. */
  lemma QueuedTwo(pipe: seq<Frame>, f1: Frame, f2: Frame, z: Id, w: Id, received: bool)
    requires Greets(pipe, received) && KeyOf(f1) == To(w) == KeyOf(f2) && Sendable(f1) && Sendable(f2)
    ensures PipeSameBut(pipe, pipe + [f1] + [f2], Some(w), Some(z)) && Greets(pipe + [f1] + [f2], received)
    ensures Select(pipe + [f1] + [f2], To(w)) == Select(pipe, To(w)) + [f1] + [f2]
    ensures Select(pipe + [f1] + [f2], From(z)) == Select(pipe, From(z))
  {
    hide Greets, Select, Sendable;
    PipePush(pipe, f1, Some(w), Some(z), received);
    PipePush(pipe + [f1], f2, Some(w), Some(z), received);
    SelectPush(pipe, f1, To(w));
    SelectPush(pipe + [f1], f2, To(w));
    SelectPush(pipe, f1, From(z));
    SelectPush(pipe + [f1], f2, From(z));
  }

  lemma LateAcceptViews(p: Side, q: Side, p': Side, z: Id, f1: Frame, f2: Frame)
    requires z in p.peers && p.peers[z] in q.peers && q.peers[p.peers[z]] == z && q.wire != []
    requires p'.peers == p.peers && p'.e.held == p.e.held
    requires NearOf(p', z) == NearOf(p, z).(awaiting := 0, dead := 1) && FarOf(p'.e, z) == Far(None, 0, Some(INITIAL_CREDITS))
    requires Select(Pipe(p'), To(p.peers[z])) == Select(Pipe(p), To(p.peers[z])) + [f1] + [f2]
    requires Select(Pipe(p'), From(z)) == Select(Pipe(p), From(z))
    requires var v, u := ViewOf(p, q, z), ViewOf(q, p, p.peers[z]);
             && v.inbound != [] && v.inbound[1..] == Select(Pipe(Taken(q)), To(z)) && u.outbound == v.inbound
    requires Select(Pipe(Taken(q)), From(p.peers[z])) == Select(Pipe(q), From(p.peers[z]))
    ensures var v := ViewOf(p, q, z);
            ViewOf(p', Taken(q), z) == v.(near := v.near.(awaiting := 0, dead := 1), inbound := v.inbound[1..], outbound := v.outbound + [f1] + [f2])
    ensures var u := ViewOf(q, p, p.peers[z]);
            ViewOf(Taken(q), p', p.peers[z]) == u.(far := Far(None, 0, Some(INITIAL_CREDITS)), outbound := u.outbound[1..], inbound := u.inbound + [f1] + [f2])
  {
    assert NearOf(Taken(q), p.peers[z]) == NearOf(q, p.peers[z]);
    assert FarOf(Taken(q).e, p.peers[z]) == FarOf(q.e, p.peers[z]);
    hide Select, Pipe, NearOf, FarOf;
  }

  lemma LateAcceptPair(p: Side, q: Side, z: Id)
    requires PairInv(p, q) && !p.e.closing && z !in p.e.pending && q.wire != [] && q.wire[0].Accept? && q.wire[0].receiver == z
    requires !HandleAccept(p.e, q.wire[0]).1.Violates? && LocalInv(HandleAccept(p.e, q.wire[0]).0)
    ensures PairInv(p.(e := HandleAccept(p.e, q.wire[0]).0), Taken(q))
  {
    hide LinkInv, ViewOf, LocalInv, PairInv, Linked, Pipe, Select, CountTombstones, FindTombstone, Awaiting, FarOf, NearOf, HandleAccept, Without;
    PairValid(p, q);
    AcceptHead(p, q, z);
    HeadView(p, q, z);
    MirrorFacts(p, q, z);
    var w := p.peers[z];
    AwaitedOnce(p.e, z);
    LateAcceptShape(p, z, q.wire[0]);
    var p' := p.(e := HandleAccept(p.e, q.wire[0]).0);
    var f1, f2 := Close(w, CancelReason()), Closed(w, CancelReason());
    LateNearLink(ViewOf(p, q, z), f1, f2);
    LateFarLink(ViewOf(q, p, w), f1, f2);
    TakenSameBut(p, q, z, w);
    QueuedTwo(Pipe(p), f1, f2, z, w, q.e.helloReceived);
    LateSameBut(p, p', z, Tombstone(z, INITIAL_CREDITS));
    LateAcceptViews(p, q, p', z, f1, f2);
    hide Greets, PipeSameBut, SameBut, NearSameBut;
    DeliveredPair(p, q, p', Taken(q), z, w);
  }

  // ---------- A rejection arrives ----------

  lemma Unlinked(p: Side, q: Side, z: Id)
    requires Mirrored(p, q) && Mirrored(q, p) && z !in p.peers
    ensures Linked(p, q, Some(z), None) && Linked(q, p, None, Some(z))
  {
  }

  /** A step concerned one id that has no counterpart yet. */
  lemma SettleAlone(p: Side, q: Side, p': Side, q': Side, z: Id)
    requires PairInv(p, q) && LocalInv(p'.e) && LocalInv(q'.e) && z !in p.peers
    requires NearSameBut(p, p', Some(z)) && SameBut(p.e, p'.e, Some(z)) && NearSameBut(q, q', None) && SameBut(q.e, q'.e, None)
    requires PipeSameBut(Pipe(p), Pipe(p'), None, Some(z)) && PipeSameBut(Pipe(q), Pipe(q'), Some(z), None)
    requires p'.e.held <= p.e.held && HeldSameBut(p.e, p'.e, None) && HeldSameBut(q.e, q'.e, Some(z)) && HeldInitial(q'.e)
    requires p'.peers == p.peers && q'.peers == q.peers
    requires Greets(Pipe(p'), q'.e.helloReceived) && Greets(Pipe(q'), p'.e.helloReceived)
    requires LinkInv(ViewOf(p', q', z))
    ensures PairInv(p', q')
  {
    PairParts(p, q);
    hide LinkInv, ViewOf, LocalInv, PairInv, Mirrored, Greets, Pipe, NearOf, FarOf, Select, NearSameBut, SameBut, PipeSameBut, HeldSameBut;
    SamePeers(p, q, p', q');
    SameHeld(p.e, p'.e);
    Unlinked(p, q, z);
    hide Linked;
    assert Confined(p, q, p', q', Some(z), None);
    hide Confined, HeldInitial;
    Settle(p, q, p', q', Some(z), None);
  }

  lemma TakenAlone(p: Side, q: Side, z: Id)
    requires PairInv(p, q) && q.wire != [] && KeyOf(q.wire[0]) == To(z)
    ensures PipeSameBut(Pipe(q), Pipe(Taken(q)), Some(z), None) && Greets(Pipe(Taken(q)), p.e.helloReceived)
    ensures PipeSameBut(Pipe(p), Pipe(p), None, Some(z)) && Greets(Pipe(p), q.e.helloReceived)
  {
    TakenPipe(q);
    PairParts(p, q);
    hide PairInv, Pipe, Select;
    PipePop(Pipe(q), Some(z), None, p.e.helloReceived);
  }

  lemma RejectSame(p: Side, z: Id)
    requires Awaiting(p.e, z) == 1
    ensures var p' := p.(e := HandleReject(p.e, z).0);
            && HandleReject(p.e, z).1 == Handled
            && p' == p.(e := p.e.(pending := p'.e.pending, cancelled := p'.e.cancelled))
            && SameBut(p.e, p'.e, Some(z)) && NearSameBut(p, p', Some(z)) && NearOf(p', z) == NearOf(p, z).(awaiting := 0)
  {
    hide Without, CountTombstones, FindTombstone;
    AwaitedOnce(p.e, z);
    var p' := p.(e := HandleReject(p.e, z).0);
    forall x: Id ensures Awaiting(p'.e, x) == Awaiting(p.e, x) - if x == z then 1 else 0 {
      WithoutCount(p.e.cancelled, z, x);
    }
    hide Awaiting;
  }

  lemma RejectHead(p: Side, q: Side, z: Id)
    requires PairInv(p, q) && q.wire != [] && q.wire[0].Reject? && q.wire[0].receiver == z
    ensures z !in p.peers && Awaiting(p.e, z) == 1
    ensures var v := ViewOf(p, q, z);
            && v.inbound != [] && v.inbound[1..] == Select(Pipe(Taken(q)), To(z))
            && LinkInv(v.(inbound := v.inbound[1..], near := v.near.(awaiting := 0)))
  {
    HeadView(p, q, z);
    RejectedView(ViewOf(p, q, z));
    hide LinkInv, PairInv, Select, Pipe, FindTombstone, CountTombstones, Awaiting;
  }

  lemma RejectPair(p: Side, q: Side, z: Id)
    requires PairInv(p, q) && q.wire != [] && q.wire[0].Reject? && q.wire[0].receiver == z
    requires LocalInv(HandleReject(p.e, z).0)
    ensures HandleReject(p.e, z).1 == Handled
    ensures PairInv(p.(e := HandleReject(p.e, z).0), Taken(q))
  {
    hide LinkInv, LocalInv, PairInv, Pipe, Select, Awaiting, FarOf, NearOf, HandleReject, Greets, PipeSameBut, SameBut, NearSameBut;
    RejectHead(p, q, z);
    RejectSame(p, z);
    TakenAlone(p, q, z);
    var p' := p.(e := HandleReject(p.e, z).0);
    SamePipe(p, p');
    var v := ViewOf(p, q, z);
    assert ViewOf(p', Taken(q), z) == v.(inbound := v.inbound[1..], near := v.near.(awaiting := 0));
    PairParts(p, q);
    TakenNear(q);
    hide ViewOf, HeldInitial;
    SettleAlone(p, q, p', Taken(q), z);
  }

  lemma TakenNear(q: Side)
    requires q.wire != []
    ensures NearSameBut(q, Taken(q), None) && SameBut(q.e, Taken(q).e, None)
  {
  }

  // ---------- A request arrives ----------

  /** An open request under way: nothing else concerns its id. */
  lemma RequestedView(u: View)
    requires LinkInv(u) && u.requests != []
    ensures u.near.peer.None? && u.inbound == [] && u.outbound == [] && u.heldByPeer == 0 && u.near.awaiting == 1
    ensures |u.requests| == 1 && u.requests[0].Request? && Credits(u.requests[0].frames, u.requests[0].bytes) == INITIAL_CREDITS
    ensures LinkInv(u.(requests := [], heldByPeer := 1))
    ensures forall f: Frame :: f.Reject? ==> LinkInv(u.(requests := [], inbound := [f]))
  {
    hide Total, LinkInv;
    Parts(u);
    if u.inbound != [] && (u.inbound[0].Accept? || u.inbound[0].Reject?) { CountAnswers(u.inbound); }
    assert u.near.peer.None? && u.inbound == [];
    WithoutPeer(u.(requests := [], heldByPeer := 1));
    forall f: Frame | f.Reject? ensures LinkInv(u.(requests := [], inbound := [f])) {
      OneAnswer(f);
      WithoutPeer(u.(requests := [], inbound := [f]));
    }
  }

  lemma RequestHead(p: Side, q: Side, x: Id)
    requires PairInv(p, q) && q.wire != [] && q.wire[0].Request? && q.wire[0].sender == x
    ensures var u := ViewOf(q, p, x);
            && LinkInv(u) && u.requests != [] && u.requests[0] == q.wire[0] && x !in q.peers
            && u.requests[1..] == [] == Select(Pipe(Taken(q)), From(x))
            && Credits(q.wire[0].frames, q.wire[0].bytes) == INITIAL_CREDITS
            && u.inbound == Select(Pipe(p), To(x)) == []
  {
    TakenPipe(q);
    SelectHead(Pipe(q), From(x));
    assert Links(q, p);
    hide LinkInv, Select, Pipe, LocalInv, NearOf, FarOf;
    RequestedView(ViewOf(q, p, x));
    assert NearOf(q, x).peer.None?;
    assert x !in q.peers by { PeerOf(q, x); }
  }

  lemma PeerOf(q: Side, x: Id)
    ensures NearOf(q, x).peer == if x in q.peers then Some(q.peers[x]) else None
  {
  }

  lemma TakenRequest(p: Side, q: Side, x: Id)
    requires PairInv(p, q) && q.wire != [] && KeyOf(q.wire[0]) == From(x)
    ensures PipeSameBut(Pipe(q), Pipe(Taken(q)), None, Some(x)) && Greets(Pipe(Taken(q)), p.e.helloReceived)
  {
    TakenPipe(q);
    PairParts(p, q);
    hide PairInv, Pipe, Select;
    PipePop(Pipe(q), None, Some(x), p.e.helloReceived);
  }

  lemma SamePipeSame(pipe: seq<Frame>, to: Option<Id>, from: Option<Id>)
    ensures PipeSameBut(pipe, pipe, to, from)
  {
  }

  /** The acting side queued an answer, or took the request into its keeping; only the opener's id is concerned. */
  lemma RequestSettled(p: Side, q: Side, p': Side, x: Id, u': View)
    requires PairInv(p, q) && LocalInv(p'.e) && q.wire != [] && q.wire[0].Request? && q.wire[0].sender == x
    requires p' == p.(e := p.e.(queue := p'.e.queue, held := p'.e.held)) && HeldInitial(p'.e) && HeldSameBut(p.e, p'.e, Some(x))
    requires PipeSameBut(Pipe(p), Pipe(p'), Some(x), None) && Greets(Pipe(p'), q.e.helloReceived)
    requires u' == ViewOf(Taken(q), p', x) && LinkInv(u')
    ensures PairInv(p', Taken(q))
  {
    hide LinkInv, LocalInv, Pipe, Select, ViewOf;
    RequestHead(p, q, x);
    TakenRequest(p, q, x);
    TakenNear(q);
    PairParts(p, q);
    hide PairInv, HeldInitial, Greets;
    assert NearSameBut(p, p', None) && SameBut(p.e, p'.e, None) by { NearHeld(p, p'); }
    hide NearOf, FarOf, PipeSameBut, SameBut, NearSameBut;
    Swap(p, q);
    SettleAlone(q, p, Taken(q), p', x);
    Swap(Taken(q), p');
  }

  lemma NearHeld(p: Side, p': Side)
    requires p' == p.(e := p.e.(queue := p'.e.queue, held := p'.e.held))
    ensures NearSameBut(p, p', None) && SameBut(p.e, p'.e, None)
  {
  }

  lemma Swap(p: Side, q: Side)
    requires PairInv(p, q)
    ensures PairInv(q, p)
  {
    hide HalfInv;
  }

  lemma RequestHeldPair(p: Side, q: Side, x: Id)
    requires PairInv(p, q) && q.wire != [] && q.wire[0].Request? && q.wire[0].sender == x
    requires LocalInv(p.e.(held := p.e.held + multiset{Incoming(x, INITIAL_CREDITS)}))
    ensures PairInv(p.(e := p.e.(held := p.e.held + multiset{Incoming(x, INITIAL_CREDITS)})), Taken(q))
  {
    hide LinkInv, LocalInv, Pipe, Select, NearOf, FarOf;
    var p' := p.(e := p.e.(held := p.e.held + multiset{Incoming(x, INITIAL_CREDITS)}));
    RequestHead(p, q, x);
    var u := ViewOf(q, p, x);
    RequestedView(u);
    SamePipe(p, p');
    SamePipeSame(Pipe(p), Some(x), None);
    PairParts(p, q);
    hide PairInv, Greets, PipeSameBut;
    HeldHere(p, q, p', x);
    RequestSettled(p, q, p', x, u.(requests := [], heldByPeer := 1));
  }

  lemma HeldHere(p: Side, q: Side, p': Side, x: Id)
    requires p' == p.(e := p.e.(held := p.e.held + multiset{Incoming(x, INITIAL_CREDITS)})) && q.wire != [] && Pipe(p') == Pipe(p)
    requires var u := ViewOf(q, p, x); x !in q.peers && u.heldByPeer == 0 && Select(Pipe(Taken(q)), From(x)) == []
    ensures ViewOf(Taken(q), p', x) == ViewOf(q, p, x).(requests := [], heldByPeer := 1)
  {
    hide Select, Pipe;
  }

  lemma RequestRejectedPair(p: Side, q: Side, x: Id, reason: Bytes)
    requires PairInv(p, q) && !p.e.closing && q.wire != [] && q.wire[0].Request? && q.wire[0].sender == x
    requires p.e.limits.Valid() && !Send(p.e, Reject(x, reason)).closing && LocalInv(Send(p.e, Reject(x, reason)))
    ensures PairInv(p.(e := Send(p.e, Reject(x, reason))), Taken(q))
  {
    hide LinkInv, LocalInv, Pipe, Select, NearOf, FarOf, Send;
    var f := Reject(x, reason);
    var p' := p.(e := Send(p.e, f));
    SendQueues(p, f);
    RequestHead(p, q, x);
    var u := ViewOf(q, p, x);
    RequestedView(u);
    PairParts(p, q);
    PipePush(Pipe(p), f, Some(x), None, q.e.helloReceived);
    SelectPush(Pipe(p), f, To(x));
    assert [] + [f] == [f];
    hide PairInv, Greets, PipeSameBut;
    RejectedHere(p, q, p', x, f);
    RequestSettled(p, q, p', x, u.(requests := [], inbound := [f]));
  }

  lemma RejectedHere(p: Side, q: Side, p': Side, x: Id, f: Frame)
    requires p' == p.(e := p.e.(queue := p'.e.queue)) && q.wire != [] && Select(Pipe(p'), To(x)) == [f]
    requires x !in q.peers && Select(Pipe(Taken(q)), From(x)) == []
    ensures ViewOf(Taken(q), p', x) == ViewOf(q, p, x).(requests := [], inbound := [f])
  {
    hide Select, Pipe;
  }

  // ---------- A held request is answered ----------

  lemma HeldView(u: View)
    requires LinkInv(u) && u.heldByPeer > 0
    ensures u.near.peer.None? && u.inbound == [] && u.outbound == [] && u.requests == [] && u.heldByPeer == 1
    ensures u.near.awaiting == 1 && u.near.snd.None? && u.near.remote.None? && u.near.grave.None? && u.near.dead == 0 && !u.near.unallocated
    ensures forall f: Frame :: f.Reject? ==> LinkInv(u.(heldByPeer := 0, inbound := [f]))
  {
    hide Total, LinkInv;
    Parts(u);
    if u.inbound != [] && (u.inbound[0].Accept? || u.inbound[0].Reject?) { CountAnswers(u.inbound); }
    assert u.near.peer.None? && u.inbound == [];
    forall f: Frame | f.Reject? ensures LinkInv(u.(heldByPeer := 0, inbound := [f])) {
      OneAnswer(f);
      WithoutPeer(u.(heldByPeer := 0, inbound := [f]));
    }
  }

  lemma AcceptedFarLink(u: View, z: Id, l: Limits, f: Frame)
    requires LinkInv(u) && u.heldByPeer > 0 && l.Valid() && f == Accept(u.id, z, INITIAL_FRAME_CREDIT, INITIAL_BYTE_CREDIT)
    ensures LinkInv(u.(near := u.near.(peer := Some(z)), heldByPeer := 0, inbound := [f], far := Far(Some(NewReceiver(l)), 0, None)))
  {
    hide LinkInv, Total, DirectionInv, Matched, Phased, NewReceiver;
    HeldView(u);
    var n := u.near.(peer := Some(z));
    OnlyAccept(u.id, n, z, f);
    AcceptedFar(l, n, Far(Some(NewReceiver(l)), 0, None));
    NothingAnswers();
    AllParts(u.(near := n, heldByPeer := 0, inbound := [f], far := Far(Some(NewReceiver(l)), 0, None)));
  }

  lemma OnlyAccept(id: Id, n: Near, z: Id, f: Frame)
    requires f == Accept(id, z, INITIAL_FRAME_CREDIT, INITIAL_BYTE_CREDIT)
    requires n.peer == Some(z) && n.awaiting == 1 && n.snd.None? && n.grave.None? && n.dead == 0 && !n.unallocated && n.remote.None?
    ensures Matched([], 0, Total([f]).answers, n.awaiting) && Phased(id, n, [f]) && Total([f]).credit == Credits(0, 0)
  {
    hide Total;
    OneAnswer(f);
  }

  lemma OneAnswer(f: Frame)
    requires f.Accept? || f.Reject?
    ensures Total([f]).answers == 1 && Total([f]).credit == Credits(0, 0)
  {
    hide Total;
    CountAnswers([f]);
    NothingAnswers();
    assert [f][1..] == [];
  }

  lemma AllParts(v: View)
    requires Matched(v.requests, v.heldByPeer, Total(v.inbound).answers, v.near.awaiting) && Phased(v.id, v.near, v.inbound)
    requires v.near.peer.Some? && DirectionInv(v.near, v.far, Total(v.outbound), Total(v.inbound).credit)
    ensures LinkInv(v)
  {
    hide Matched, Phased, DirectionInv, Total;
  }

  lemma FreshView(v: View)
    requires LinkInv(v) && v.near.unallocated
    ensures v.near.peer.None? && v.inbound == [] && v.outbound == [] && v.requests == [] && v.heldByPeer == 0
    ensures v.near.awaiting == 0 && v.near.snd.None? && v.near.grave.None? && v.near.dead == 0
    ensures forall f: Frame :: f.Request? && Credits(f.frames, f.bytes) == INITIAL_CREDITS ==>
              LinkInv(v.(near := v.near.(unallocated := false, awaiting := 1), requests := [f]))
  {
    hide Total, LinkInv;
    Parts(v);
    NothingAnswers();
    forall f: Frame | f.Request? && Credits(f.frames, f.bytes) == INITIAL_CREDITS
      ensures LinkInv(v.(near := v.near.(unallocated := false, awaiting := 1), requests := [f]))
    {
      WithoutPeer(v.(near := v.near.(unallocated := false, awaiting := 1), requests := [f]));
    }
  }

  lemma AcceptedNearLink(z: Id, w: Id, far: Far, l: Limits, f: Frame)
    requires far.rcv.None? && far.awaiting > 0 && f.Accept?
    ensures LinkInv(View(z, Near(Some(w), false, Some(NewSender(INITIAL_CREDITS)), Some(w), None, 0, 0), [], [f], [], 0, far))
  {
    hide LinkInv, Total;
    NothingAnswers();
    Link.PushData([], f);
    assert [] + [f] == [f];
    var n := Near(Some(w), false, Some(NewSender(INITIAL_CREDITS)), Some(w), None, 0, 0);
    AcceptedNear(l, n, far, Total([f]));
    hide DirectionInv;
    AllParts(View(z, n, [], [f], [], 0, far));
  }
}
