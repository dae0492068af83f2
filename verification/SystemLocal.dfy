/** Local steps that open, answer, cancel, clean up or forget channels, and the neutral ones. */
module SystemLocal {
  import opened Wrappers
  import opened FrameCodec
  import opened ConnectionLimits
  import opened OutgoingQueue
  import opened ReceiveWindow
  import opened Endpoint
  import opened EndpointSafety
  import opened Link
  import opened LinkSteps
  import opened LinkUpdates
  import opened Pipes
  import opened System
  import opened SystemSteps
  import opened SystemDelivery
  import opened SystemOpening

  // ---------- Opening ----------

  lemma OpenShape(p: Side, endpoint: Bytes)
    requires LocalInv(p.e) && !OpenChannel(p.e, endpoint).closing
    ensures var e' := OpenChannel(p.e, endpoint);
            var f := Request(p.e.nextId, INITIAL_FRAME_CREDIT, INITIAL_BYTE_CREDIT, endpoint);
            || e' == p.e
            || (&& e' == p.e.(nextId := p.e.nextId + 1, pending := p.e.pending[p.e.nextId := false], queue := e'.queue)
                && Pipe(p.(e := e')) == Pipe(p) + [f])
  {
    hide LocalInv, Send;
    Valid(p.e);
    var e1 := p.e.(nextId := p.e.nextId + 1);
    var f := Request(p.e.nextId, INITIAL_FRAME_CREDIT, INITIAL_BYTE_CREDIT, endpoint);
    if OpenChannel(p.e, endpoint) != p.e {
      OnceClosing(e1, f);
      SamePipe(p, p.(e := e1));
      SendQueues(p.(e := e1), f);
      SamePipe(p.(e := OpenChannel(p.e, endpoint)), p.(e := Send(e1, f)));
    }
    hide Pipe;
  }

  lemma OpenSameBut(p: Side, p': Side)
    requires p'.e == p.e.(nextId := p.e.nextId + 1, pending := p.e.pending[p.e.nextId := false], queue := p'.e.queue) && p' == p.(e := p'.e)
    ensures NearSameBut(p, p', Some(p.e.nextId)) && SameBut(p.e, p'.e, Some(p.e.nextId))
    ensures Awaiting(p.e, p.e.nextId) == 0 ==>
              NearOf(p', p.e.nextId) == NearOf(p, p.e.nextId).(unallocated := false, awaiting := 1)
  {
    hide CountTombstones, FindTombstone;
  }

  lemma OpenViews(p: Side, q: Side, p': Side, f: Frame)
    requires p' == p.(e := p'.e) && p'.e.held == p.e.held && Select(Pipe(p'), From(p.e.nextId)) == [f] && p.e.nextId !in p.peers
    requires NearOf(p', p.e.nextId) == NearOf(p, p.e.nextId).(unallocated := false, awaiting := 1)
    ensures var v := ViewOf(p, q, p.e.nextId);
            ViewOf(p', q, p.e.nextId) == v.(near := v.near.(unallocated := false, awaiting := 1), requests := [f])
  {
    hide Select, Pipe, NearOf, FarOf;
  }

  lemma OpenPair(p: Side, q: Side, endpoint: Bytes)
    requires PairInv(p, q) && !OpenChannel(p.e, endpoint).closing && LocalInv(OpenChannel(p.e, endpoint))
    ensures PairInv(p.(e := OpenChannel(p.e, endpoint)), q)
  {
    hide LinkInv, LocalInv, PairInv, Pipe, Select, NearOf, FarOf, OpenChannel, Greets, PipeSameBut, SameBut, NearSameBut;
    PairValid(p, q);
    PairParts(p, q);
    OpenShape(p, endpoint);
    var p' := p.(e := OpenChannel(p.e, endpoint));
    if p'.e != p.e {
      var z := p.e.nextId;
      var f := Request(z, INITIAL_FRAME_CREDIT, INITIAL_BYTE_CREDIT, endpoint);
      LinkOf(p, q, z);
      Unallocated(p, z);
      FreshView(ViewOf(p, q, z));
      FreshFacts(p, q);
      SelectPush(Pipe(p), f, From(z));
      assert [] + [f] == [f];
      OpenSameBut(p, p');
      OpenViews(p, q, p', f);
      PipePush(Pipe(p), f, None, Some(z), q.e.helloReceived);
      SamePipeSame(Pipe(q), Some(z), None);
      SameSide(q);
      hide ViewOf, HeldInitial;
      SettleAlone(p, q, p', q, z);
    }
  }

  lemma Unallocated(p: Side, z: Id)
    requires z >= p.e.nextId
    ensures NearOf(p, z).unallocated
  {
  }

  lemma SameSide(q: Side)
    ensures forall z: Option<Id> :: NearSameBut(q, q, z) && SameBut(q.e, q.e, z)
  {
    hide NearOf, FarOf;
  }

  lemma LinkOf(p: Side, q: Side, x: Id)
    requires PairInv(p, q)
    ensures LinkInv(ViewOf(p, q, x))
  {
    assert Links(p, q);
    hide LinkInv, ViewOf;
  }

  // ---------- Cancelling ----------

  lemma Reawaited(p: Side, p': Side)
    requires p' == p.(e := p.e.(pending := p'.e.pending, cancelled := p'.e.cancelled))
    requires forall x: Id :: Awaiting(p'.e, x) == Awaiting(p.e, x)
    ensures NearSameBut(p, p', None) && SameBut(p.e, p'.e, None) && Pipe(p') == Pipe(p)
  {
    hide Awaiting, CountTombstones, FindTombstone;
  }

  /** Giving up an open changes where it is awaited, not whether. */
  lemma CancelPair(p: Side, q: Side, p': Side)
    requires PairInv(p, q) && LocalInv(p'.e) && p' == p.(e := p.e.(pending := p'.e.pending, cancelled := p'.e.cancelled))
    requires forall x: Id :: Awaiting(p'.e, x) == Awaiting(p.e, x)
    ensures PairInv(p', q)
  {
    hide LinkInv, LocalInv, PairInv, Pipe, Select, NearOf, FarOf, Greets, PipeSameBut, SameBut, NearSameBut, Awaiting;
    PairParts(p, q);
    Reawaited(p, p');
    SameSide(q);
    SamePipeSame(Pipe(p), None, None);
    SamePipeSame(Pipe(q), None, None);
    Unconcerned(p, q, p', q);
  }

  lemma CancelAwaits(e: State, id: Id)
    ensures forall x: Id :: Awaiting(CancelOpen(e, id), x) == Awaiting(e, x)
  {
  }

  lemma CleanupAwaits(e: State, id: Id)
    requires !CleanupCancelled(e, id).closing
    ensures CleanupCancelled(e, id) == e.(pending := CleanupCancelled(e, id).pending, cancelled := CleanupCancelled(e, id).cancelled)
    ensures forall x: Id :: Awaiting(CleanupCancelled(e, id), x) == Awaiting(e, x)
  {
  }

  // ---------- Answering ----------

  lemma HeldFacts(p: Side, q: Side, r: Incoming)
    requires PairInv(p, q) && r in p.e.held
    ensures r.credit == INITIAL_CREDITS
    ensures var u := ViewOf(q, p, r.remote);
            LinkInv(u) && u.id == r.remote && u.heldByPeer > 0 && r.remote !in q.peers && Select(Pipe(p), To(r.remote)) == [] == Select(Pipe(q), From(r.remote))
  {
    PairParts(p, q);
    assert Links(q, p);
    hide LinkInv, Select, Pipe, LocalInv, NearOf, FarOf;
    var u := ViewOf(q, p, r.remote);
    HeldView(u);
    PeerOf(q, r.remote);
  }

  lemma RejectShape(p: Side, r: Incoming, reason: Bytes)
    requires LocalInv(p.e) && r in p.e.held && !RejectIncoming(p.e, r, reason).closing
    ensures var e' := RejectIncoming(p.e, r, reason);
            && e' == p.e.(held := p.e.held - multiset{r}, queue := e'.queue)
            && Pipe(p.(e := e')) == Pipe(p) + [Reject(r.remote, reason)]
  {
    hide LocalInv, Send;
    Valid(p.e);
    var e1 := p.e.(held := p.e.held - multiset{r});
    var f := Reject(r.remote, reason);
    OnceClosing(e1, f);
    SamePipe(p, p.(e := e1));
    SendQueues(p.(e := e1), f);
    hide Pipe;
  }

  lemma RejectedViews(p: Side, q: Side, p': Side, r: Incoming, f: Frame)
    requires p' == p.(e := p.e.(held := p.e.held - multiset{r}, queue := p'.e.queue)) && r in p.e.held && r.credit == INITIAL_CREDITS
    requires r.remote !in q.peers && ViewOf(q, p, r.remote).heldByPeer == 1 && Select(Pipe(p'), To(r.remote)) == [f]
    ensures ViewOf(q, p', r.remote) == ViewOf(q, p, r.remote).(heldByPeer := 0, inbound := [f])
    ensures HeldSameBut(p.e, p'.e, Some(r.remote)) && NearSameBut(p, p', None) && SameBut(p.e, p'.e, None) && p'.e.held <= p.e.held
  {
    hide Select, Pipe;
  }

  lemma RejectHeldPair(p: Side, q: Side, r: Incoming, reason: Bytes)
    requires PairInv(p, q) && r in p.e.held
    requires !RejectIncoming(p.e, r, reason).closing && LocalInv(RejectIncoming(p.e, r, reason))
    ensures PairInv(p.(e := RejectIncoming(p.e, r, reason)), q)
  {
    hide LinkInv, LocalInv, PairInv, Pipe, Select, NearOf, FarOf, Greets, PipeSameBut, SameBut, NearSameBut, HeldSameBut, RejectIncoming, ViewOf;
    PairValid(p, q);
    PairParts(p, q);
    HeldFacts(p, q, r);
    RejectShape(p, r, reason);
    var w, f := r.remote, Reject(r.remote, reason);
    var p' := p.(e := RejectIncoming(p.e, r, reason));
    HeldView(ViewOf(q, p, w));
    PipePush(Pipe(p), f, Some(w), None, q.e.helloReceived);
    SelectPush(Pipe(p), f, To(w));
    assert [] + [f] == [f];
    RejectedViews(p, q, p', r, f);
    SamePipeSame(Pipe(q), None, Some(w));
    SameSide(q);
    SameHeld(p.e, p'.e);
    Swap(p, q);
    assert HeldSameBut(q.e, q.e, None) by { SameHeldCounts(q.e); }
    SettleAlone(q, p, q, p', w);
    Swap(q, p');
  }

  lemma SameHeldCounts(e: State)
    ensures forall z: Option<Id> :: HeldSameBut(e, e, z)
  {
  }

  lemma AcceptShape(p: Side, r: Incoming)
    requires LocalInv(p.e) && r in p.e.held && !AcceptChannel(p.e, r).closing
    ensures var e' := AcceptChannel(p.e, r);
            && e' == p.e.(held := p.e.held - multiset{r}, nextId := p.e.nextId + 1, queue := e'.queue,
                          channels := p.e.channels[p.e.nextId := NewChannel(r.remote, r.credit, p.e.limits)])
            && Pipe(p.(e := e')) == Pipe(p) + [Accept(r.remote, p.e.nextId, INITIAL_FRAME_CREDIT, INITIAL_BYTE_CREDIT)]
  {
    AcceptFits(p.e, r);
    Valid(p.e);
    hide LocalInv, Send, NewChannel;
    var e1 := p.e.(held := p.e.held - multiset{r}, nextId := p.e.nextId + 1);
    var f := Accept(r.remote, p.e.nextId, INITIAL_FRAME_CREDIT, INITIAL_BYTE_CREDIT);
    OnceClosing(e1, f);
    SamePipe(p, p.(e := e1));
    SendQueues(p.(e := e1), f);
    SamePipe(p.(e := AcceptChannel(p.e, r)), p.(e := Send(e1, f)));
    hide Pipe;
  }

  /** Both sides' histories record the new pair of counterparts. */
  lemma NewPeers(p: Side, q: Side, p': Side, q': Side, z: Id, w: Id)
    requires Mirrored(p, q) && Mirrored(q, p) && z !in p.peers && w !in q.peers
    requires p'.peers == p.peers[z := w] && q'.peers == q.peers[w := z]
    ensures Mirrored(p', q') && Mirrored(q', p') && Linked(p, q, Some(z), Some(w))
  {
  }

  lemma AcceptSameBut(p: Side, q: Side, p': Side, q': Side, r: Incoming)
    requires r in p.e.held && r.credit == INITIAL_CREDITS
    requires var z, w := p.e.nextId, r.remote;
      && p'.e == p.e.(held := p.e.held - multiset{r}, nextId := z + 1, queue := p'.e.queue,
                      channels := p.e.channels[z := NewChannel(w, INITIAL_CREDITS, p.e.limits)])
      && p' == p.(e := p'.e, peers := p.peers[z := w]) && q' == q.(peers := q.peers[w := z])
    ensures var z, w := p.e.nextId, r.remote;
      && NearSameBut(p, p', Some(z)) && SameBut(p.e, p'.e, Some(z)) && NearSameBut(q, q', Some(w)) && SameBut(q.e, q'.e, Some(w))
      && HeldSameBut(p.e, p'.e, Some(w)) && HeldSameBut(q.e, q'.e, Some(z)) && p'.e.held <= p.e.held
  {
    hide FindTombstone, CountTombstones;
  }

  lemma AcceptViews(p: Side, q: Side, p': Side, q': Side, r: Incoming, f: Frame)
    requires r in p.e.held && r.credit == INITIAL_CREDITS
    requires var z, w := p.e.nextId, r.remote;
      && p'.e == p.e.(held := p.e.held - multiset{r}, nextId := z + 1, queue := p'.e.queue,
                      channels := p.e.channels[z := NewChannel(w, INITIAL_CREDITS, p.e.limits)])
      && p' == p.(e := p'.e, peers := p.peers[z := w]) && q' == q.(peers := q.peers[w := z])
      && Select(Pipe(p'), To(w)) == [f] && Select(Pipe(p'), From(z)) == Select(Pipe(p), From(z))
    requires var v, u := ViewOf(p, q, p.e.nextId), ViewOf(q, p, r.remote);
      && v.near.grave.None? && v.near.awaiting == 0 && v.near.dead == 0 && v.inbound == [] && v.requests == [] && v.heldByPeer == 0
      && u.heldByPeer == 1 && u.outbound == []
    ensures ViewOf(p', q', p.e.nextId) ==
            View(p.e.nextId, Near(Some(r.remote), false, Some(NewSender(INITIAL_CREDITS)), Some(r.remote), None, 0, 0), [], [f], [], 0, FarOf(q.e, r.remote))
    ensures var u := ViewOf(q, p, r.remote);
            ViewOf(q', p', r.remote) == u.(near := u.near.(peer := Some(p.e.nextId)), heldByPeer := 0, inbound := [f],
                                           far := Far(Some(NewReceiver(p.e.limits)), 0, None))
  {
    FoundIffCounted(p.e.tombstones, p.e.nextId);
    assert Pipe(q') == Pipe(q);
    hide Select, Pipe, FindTombstone, CountTombstones, NewReceiver, NewSender;
  }

  lemma AcceptHeldPair(p: Side, q: Side, r: Incoming)
    requires PairInv(p, q) && r in p.e.held && !AcceptChannel(p.e, r).closing && LocalInv(AcceptChannel(p.e, r))
    ensures PairInv(p.(e := AcceptChannel(p.e, r), peers := p.peers[p.e.nextId := r.remote]), q.(peers := q.peers[r.remote := p.e.nextId]))
  {
    hide LinkInv, LocalInv, PairInv, Pipe, Select, NearOf, FarOf, Greets, PipeSameBut, SameBut, NearSameBut, HeldSameBut, AcceptChannel, ViewOf, Linked, Mirrored, Confined;
    PairValid(p, q);
    PairParts(p, q);
    HeldFacts(p, q, r);
    AcceptShape(p, r);
    var z, w := p.e.nextId, r.remote;
    var f := Accept(w, z, INITIAL_FRAME_CREDIT, INITIAL_BYTE_CREDIT);
    var p' := p.(e := AcceptChannel(p.e, r), peers := p.peers[z := w]);
    var q' := q.(peers := q.peers[w := z]);
    FreshFacts(p, q);
    HeldView(ViewOf(q, p, w));
    NewPeers(p, q, p', q', z, w);
    SamePipe(p', p.(e := p'.e));
    SamePipe(q', q);
    PipePush(Pipe(p), f, Some(w), Some(z), q.e.helloReceived);
    SelectPush(Pipe(p), f, To(w));
    SelectPush(Pipe(p), f, From(z));
    assert [] + [f] == [f];
    SamePipeSame(Pipe(q), Some(z), Some(w));
    AcceptSameBut(p, q, p', q', r);
    AcceptOutbound(p, q, r);
    AcceptViews(p, q, p', q', r, f);
    AcceptedFarLink(ViewOf(q, p, w), z, p.e.limits, f);
    AcceptedNearLink(z, w, FarOf(q.e, w), p.e.limits, f);
    SameHeld(p.e, p'.e);
    assert Confined(p, q, p', q', Some(z), Some(w)) by { ConfinedParts(p, q, p', q', z, w); }
    Settle(p, q, p', q', Some(z), Some(w));
  }

  lemma ConfinedParts(p: Side, q: Side, p': Side, q': Side, z: Id, w: Id)
    requires Linked(p, q, Some(z), Some(w))
    requires NearSameBut(p, p', Some(z)) && SameBut(p.e, p'.e, Some(z)) && NearSameBut(q, q', Some(w)) && SameBut(q.e, q'.e, Some(w))
    requires PipeSameBut(Pipe(p), Pipe(p'), Some(w), Some(z)) && PipeSameBut(Pipe(q), Pipe(q'), Some(z), Some(w))
    requires HeldSameBut(p.e, p'.e, Some(w)) && HeldSameBut(q.e, q'.e, Some(z))
    ensures Confined(p, q, p', q', Some(z), Some(w))
  {
    hide Linked, NearSameBut, SameBut, PipeSameBut, HeldSameBut, Pipe;
  }

  lemma FreshFacts(p: Side, q: Side)
    requires PairInv(p, q)
    ensures var v := ViewOf(p, q, p.e.nextId);
            && v.near.grave.None? && v.near.awaiting == 0 && v.near.dead == 0 && v.inbound == [] && v.requests == [] && v.heldByPeer == 0
            && p.e.nextId !in p.peers && Awaiting(p.e, p.e.nextId) == 0 && v.requests == Select(Pipe(p), From(p.e.nextId))
  {
    var z := p.e.nextId;
    LinkOf(p, q, z);
    Unallocated(p, z);
    hide LinkInv, PairInv, FarOf, Select, Pipe, Awaiting, CountTombstones;
    FreshView(ViewOf(p, q, z));
    PeerOf(p, z);
  }

  lemma AcceptOutbound(p: Side, q: Side, r: Incoming)
    requires PairInv(p, q) && r in p.e.held && r.credit == INITIAL_CREDITS
    ensures var u := ViewOf(q, p, r.remote); u.heldByPeer == 1 && u.outbound == [] && FarOf(q.e, r.remote).rcv.None? && FarOf(q.e, r.remote).awaiting > 0
  {
    HeldFacts(p, q, r);
    hide LinkInv, PairInv, Select, Pipe, CountTombstones, FindTombstone, Awaiting;
    HeldView(ViewOf(q, p, r.remote));
  }
}
