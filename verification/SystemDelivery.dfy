/** Processing the oldest frame from the other side keeps the pair invariant. */
module SystemDelivery {
  import opened Wrappers
  import opened FrameCodec
  import opened ConnectionLimits
  import opened OutgoingQueue
  import opened ReceiveWindow
  import opened Endpoint
  import opened EndpointSafety
  import opened Link
  import opened LinkSteps
  import opened LinkUpdates
  import opened Pipes
  import opened System
  import opened SystemSteps

  /** The other side after its oldest frame in transit was taken. */
  function Taken(q: Side): Side
    requires q.wire != []
  {
    q.(wire := q.wire[1..])
  }

  lemma TakenPipe(q: Side)
    requires q.wire != []
    ensures Pipe(q) != [] && Pipe(q)[0] == q.wire[0] && Pipe(Taken(q)) == Pipe(q)[1..]
  {
  }

  /** The oldest frame is the oldest for the id it is addressed to. */
  lemma HeadView(p: Side, q: Side, z: Id)
    requires PairInv(p, q) && q.wire != [] && KeyOf(q.wire[0]) == To(z)
    ensures var inbound := ViewOf(p, q, z).inbound;
            && inbound != [] && inbound[0] == q.wire[0] && inbound[1..] == Select(Pipe(Taken(q)), To(z))
            && LinkInv(ViewOf(p, q, z))
  {
    TakenPipe(q);
    SelectHead(Pipe(q), To(z));
    assert Links(p, q);
    hide LinkInv, Select, Pipe, LocalInv, NearOf, FarOf;
  }

  lemma MirrorFacts(p: Side, q: Side, z: Id)
    requires PairInv(p, q) && z in p.peers
    ensures var w := p.peers[z];
            && w in q.peers && q.peers[w] == z && Linked(p, q, Some(z), Some(w))
            && LinkInv(ViewOf(p, q, z)) && LinkInv(ViewOf(q, p, w))
            && ViewOf(p, q, z).near.peer == Some(w) && ViewOf(q, p, w).near.peer == Some(z)
            && ViewOf(q, p, w).outbound == ViewOf(p, q, z).inbound
            && ViewOf(q, p, w).far == FarOf(p.e, z)
            && ViewOf(p, q, z).near.awaiting == ViewOf(q, p, w).far.awaiting
  {
    assert Links(p, q) && Links(q, p) && Mirrored(p, q) && Mirrored(q, p);
    hide LinkInv, Select, Pipe, LocalInv, Greets;
  }

  /** Anything but an answer belongs to an accepted channel that is no longer awaited. */
  lemma OrdinaryHead(p: Side, q: Side, z: Id)
    requires PairInv(p, q) && q.wire != [] && KeyOf(q.wire[0]) == To(z)
    requires !q.wire[0].Accept? && !q.wire[0].Reject?
    ensures z in p.peers && ViewOf(p, q, z).near.awaiting == 0
  {
    HeadView(p, q, z);
    hide PairInv, Pipe, Select, DirectionInv, Matched;
  }

  // ---------- Frames for an open channel ----------

  lemma ReceiveConfined(p: Side, q: Side, p': Side, q': Side, z: Id, w: Id)
    requires Linked(p, q, Some(z), Some(w))
    requires p' == p.(e := p'.e) && q' == q.(wire := q'.wire)
    requires SameBut(p.e, p'.e, Some(z)) && NearSameBut(p, p', Some(z)) && p'.e.held == p.e.held
    requires PipeSameBut(Pipe(p), Pipe(p'), Some(w), Some(z)) && PipeSameBut(Pipe(q), Pipe(q'), Some(z), Some(w))
    ensures Confined(p, q, p', q', Some(z), Some(w))
  {
    hide Select, Pipe;
  }

  /** A frame was processed that concerns two counterparts. */
  lemma DeliveredPair(p: Side, q: Side, p': Side, q': Side, z: Id, w: Id)
    requires PairInv(p, q) && LocalInv(p'.e) && Linked(p, q, Some(z), Some(w))
    requires p' == p.(e := p'.e) && q' == q.(wire := q'.wire) && p'.e.held == p.e.held
    requires SameBut(p.e, p'.e, Some(z)) && NearSameBut(p, p', Some(z))
    requires PipeSameBut(Pipe(p), Pipe(p'), Some(w), Some(z)) && PipeSameBut(Pipe(q), Pipe(q'), Some(z), Some(w))
    requires Greets(Pipe(p'), q.e.helloReceived) && Greets(Pipe(q'), p'.e.helloReceived)
    requires LinkInv(ViewOf(p', q', z)) && LinkInv(ViewOf(q', p', w))
    ensures PairInv(p', q')
  {
    PairParts(p, q);
    hide LinkInv, ViewOf, LocalInv, PairInv, Mirrored, Greets, Pipe, HeldInitial, NearOf, FarOf, Select, Linked, NearSameBut, SameBut, PipeSameBut;
    ReceiveConfined(p, q, p', q', z, w);
    SamePeers(p, q, p', q');
    SameHeld(p.e, p'.e);
    hide Confined;
    Settle(p, q, p', q', Some(z), Some(w));
  }

  lemma TakenSameBut(p: Side, q: Side, z: Id, w: Id)
    requires PairInv(p, q) && q.wire != [] && KeyOf(q.wire[0]) == To(z)
    ensures PipeSameBut(Pipe(q), Pipe(Taken(q)), Some(z), Some(w)) && Greets(Pipe(Taken(q)), p.e.helloReceived)
    ensures PipeSameBut(Pipe(p), Pipe(p), Some(w), Some(z)) && Greets(Pipe(p), q.e.helloReceived)
    ensures Select(Pipe(Taken(q)), From(w)) == Select(Pipe(q), From(w))
  {
    TakenPipe(q);
    assert Greets(Pipe(q), p.e.helloReceived) && Greets(Pipe(p), q.e.helloReceived);
    hide PairInv, Pipe, Select;
    PipePop(Pipe(q), Some(z), Some(w), p.e.helloReceived);
    SelectHead(Pipe(q), From(w));
  }

  /** A frame changed one open channel at its destination. */
  lemma ChannelReceive(p: Side, q: Side, p': Side, z: Id, c: Channel)
    requires PairInv(p, q) && z in p.e.channels && c.remote == p.e.channels[z].remote && LocalInv(p'.e)
    requires q.wire != [] && KeyOf(q.wire[0]) == To(z)
    requires p' == p.(e := p.e.(channels := p.e.channels[z := c]))
    requires var v, u := ViewOf(p, q, z), ViewOf(q, p, c.remote);
             && v.inbound != [] && LinkInv(v.(near := WithSnd(v.near, c.sender), inbound := v.inbound[1..]))
             && u.outbound != [] && LinkInv(u.(far := WithRcv(u.far, c.receiver), outbound := u.outbound[1..]))
    ensures PairInv(p', Taken(q))
  {
    hide LinkInv, LocalInv, PairInv, Linked, Pipe, Select, NearOf, FarOf;
    var w := c.remote;
    ChannelFacts(p, q, z);
    HeadView(p, q, z);
    MirrorFacts(p, q, z);
    TakenSameBut(p, q, z, w);
    ChannelSame(p, p', z, c);
    ReceiveViews(p, q, p', z, c);
    SamePipe(p, p');
    hide ViewOf, Greets, PipeSameBut, SameBut, NearSameBut;
    DeliveredPair(p, q, p', Taken(q), z, w);
  }

  lemma ChannelSame(p: Side, p': Side, z: Id, c: Channel)
    requires z in p.e.channels && p' == p.(e := p.e.(channels := p.e.channels[z := c]))
    ensures SameBut(p.e, p'.e, Some(z)) && NearSameBut(p, p', Some(z))
  {
  }

  lemma ReceiveViews(p: Side, q: Side, p': Side, z: Id, c: Channel)
    requires z in p.e.channels && q.wire != []
    requires p' == p.(e := p.e.(channels := p.e.channels[z := c])) && c.remote == p.e.channels[z].remote
    requires var w := c.remote; z in p.peers && p.peers[z] == w && w in q.peers && q.peers[w] == z
    requires var v, u := ViewOf(p, q, z), ViewOf(q, p, c.remote);
             && v.inbound != [] && v.inbound[1..] == Select(Pipe(Taken(q)), To(z)) && u.outbound == v.inbound
    requires Select(Pipe(Taken(q)), From(c.remote)) == Select(Pipe(q), From(c.remote))
    ensures var v := ViewOf(p, q, z);
            ViewOf(p', Taken(q), z) == v.(near := WithSnd(v.near, c.sender), inbound := v.inbound[1..])
    ensures var u := ViewOf(q, p, c.remote);
            ViewOf(Taken(q), p', c.remote) == u.(far := WithRcv(u.far, c.receiver), outbound := u.outbound[1..])
  {
    SamePipe(p, p');
    hide Select, Pipe;
  }

  lemma DataPair(p: Side, q: Side, z: Id)
    requires PairInv(p, q) && z in p.e.channels && q.wire != [] && q.wire[0].Data? && q.wire[0].receiver == z
    requires LocalInv(HandleData(p.e, z, q.wire[0].payload).0)
    ensures HandleData(p.e, z, q.wire[0].payload).1 == Handled
    ensures PairInv(p.(e := HandleData(p.e, z, q.wire[0].payload).0), Taken(q))
  {
    hide LinkInv, ViewOf, LocalInv, PairInv, Linked, Pipe, Select, Store;
    var c := p.e.channels[z];
    ChannelFacts(p, q, z);
    HeadView(p, q, z);
    MirrorFacts(p, q, z);
    var v, u := ViewOf(p, q, z), ViewOf(q, p, c.remote);
    InboundPop(v);
    DataLink(u);
    assert v.(near := WithSnd(v.near, c.sender)) == v;
    ChannelReceive(p, q, p.(e := HandleData(p.e, z, q.wire[0].payload).0), z, c.(receiver := Store(c.receiver, q.wire[0].payload)));
  }

  lemma AdjustPair(p: Side, q: Side, z: Id, add: Credits)
    requires PairInv(p, q) && z in p.e.channels && q.wire != [] && q.wire[0] == Adjust(z, add.frames, add.bytes)
    requires add.frames > 0 || add.bytes > 0
    requires LocalInv(HandleAdjust(p.e, z, add).0)
    ensures HandleAdjust(p.e, z, add).1 == Handled
    ensures PairInv(p.(e := HandleAdjust(p.e, z, add).0), Taken(q))
  {
    hide LinkInv, ViewOf, LocalInv, PairInv, Linked, Pipe, Select;
    var c := p.e.channels[z];
    ChannelFacts(p, q, z);
    HeadView(p, q, z);
    MirrorFacts(p, q, z);
    var v, u := ViewOf(p, q, z), ViewOf(q, p, c.remote);
    AdjustLink(v);
    OutboundPop(u);
    assert u.(far := WithRcv(u.far, c.receiver)) == u;
    ChannelReceive(p, q, p.(e := HandleAdjust(p.e, z, add).0), z, c.(sender := c.sender.(credit := Add(c.sender.credit, add))));
  }

  lemma ClosePair(p: Side, q: Side, z: Id)
    requires PairInv(p, q) && z in p.e.channels && q.wire != [] && q.wire[0].Close? && q.wire[0].receiver == z
    requires LocalInv(HandleClose(p.e, z).0)
    ensures PairInv(p.(e := HandleClose(p.e, z).0), Taken(q))
  {
    hide LinkInv, ViewOf, LocalInv, PairInv, Linked, Pipe, Select;
    var c := p.e.channels[z];
    ChannelFacts(p, q, z);
    HeadView(p, q, z);
    MirrorFacts(p, q, z);
    var v, u := ViewOf(p, q, z), ViewOf(q, p, c.remote);
    CloseLink(v);
    OutboundPop(u);
    assert u.(far := WithRcv(u.far, c.receiver)) == u;
    ChannelReceive(p, q, p.(e := HandleClose(p.e, z).0), z, c.(sender := c.sender.(closed := true)));
  }

  lemma ClosedPair(p: Side, q: Side, z: Id)
    requires PairInv(p, q) && z in p.e.channels && q.wire != [] && q.wire[0].Closed? && q.wire[0].receiver == z
    requires LocalInv(HandleClosed(p.e, z).0)
    ensures PairInv(p.(e := HandleClosed(p.e, z).0), Taken(q))
  {
    hide LinkInv, ViewOf, LocalInv, PairInv, Linked, Pipe, Select;
    var c := p.e.channels[z];
    ChannelFacts(p, q, z);
    HeadView(p, q, z);
    MirrorFacts(p, q, z);
    var v, u := ViewOf(p, q, z), ViewOf(q, p, c.remote);
    InboundPop(v);
    ClosedLink(u);
    assert v.(near := WithSnd(v.near, c.sender)) == v;
    ChannelReceive(p, q, p.(e := HandleClosed(p.e, z).0), z, c.(receiver := c.receiver.(closed := true)));
  }

  // ---------- Frames for a channel that is gone ----------

  lemma {:induction false} SpendFacts(ts: seq<Tombstone>, id: Id, bytes: nat, x: Id)
    requires FindTombstone(ts, id).Some? && 0 < FindTombstone(ts, id).value.frames
             && bytes <= FindTombstone(ts, id).value.bytes
    ensures var ts' := SpendTombstone(ts, id, bytes);
            var c := FindTombstone(ts, id).value;
            && CountTombstones(ts', x) == CountTombstones(ts, x)
            && FindTombstone(ts', x) == if x == id then Some(Credits(c.frames - 1, c.bytes - bytes)) else FindTombstone(ts, x)
  {
    if ts[0].id != id {
      SpendFacts(ts[1..], id, bytes, x);
      assert SpendTombstone(ts, id, bytes)[1..] == SpendTombstone(ts[1..], id, bytes);
    } else {
      assert SpendTombstone(ts, id, bytes)[1..] == ts[1..];
    }
  }

  lemma LateSame(p: Side, p': Side, z: Id)
    requires p' == p.(e := p.e.(tombstones := p'.e.tombstones))
    requires forall x: Id :: CountTombstones(p'.e.tombstones, x) == CountTombstones(p.e.tombstones, x)
    requires forall x: Id :: x != z ==> FindTombstone(p'.e.tombstones, x) == FindTombstone(p.e.tombstones, x)
    ensures SameBut(p.e, p'.e, Some(z)) && NearSameBut(p, p', Some(z)) && NearOf(p', z) == NearOf(p, z)
    ensures Pipe(p') == Pipe(p)
  {
  }

  /** A frame for a closed or evicted channel; at most its tombstone's credit changes. */
  lemma LateReceive(p: Side, q: Side, p': Side, z: Id)
    requires PairInv(p, q) && z in p.peers && LocalInv(p'.e)
    requires q.wire != [] && KeyOf(q.wire[0]) == To(z)
    requires p' == p.(e := p.e.(tombstones := p'.e.tombstones))
    requires forall x: Id :: CountTombstones(p'.e.tombstones, x) == CountTombstones(p.e.tombstones, x)
    requires forall x: Id :: x != z ==> FindTombstone(p'.e.tombstones, x) == FindTombstone(p.e.tombstones, x)
    requires var v, u := ViewOf(p, q, z), ViewOf(q, p, p.peers[z]);
             && v.inbound != [] && LinkInv(v.(inbound := v.inbound[1..]))
             && u.outbound != [] && LinkInv(u.(far := FarOf(p'.e, z), outbound := u.outbound[1..]))
    ensures PairInv(p', Taken(q))
  {
    hide LinkInv, LocalInv, PairInv, Linked, Pipe, Select, NearOf, FarOf, CountTombstones, FindTombstone;
    var w := p.peers[z];
    HeadView(p, q, z);
    MirrorFacts(p, q, z);
    TakenSameBut(p, q, z, w);
    LateSame(p, p', z);
    LateViews(p, q, p', z);
    hide ViewOf, Greets, PipeSameBut, SameBut, NearSameBut;
    DeliveredPair(p, q, p', Taken(q), z, w);
  }

  lemma LateViews(p: Side, q: Side, p': Side, z: Id)
    requires z in p.peers && p.peers[z] in q.peers && q.peers[p.peers[z]] == z && q.wire != []
    requires p' == p.(e := p.e.(tombstones := p'.e.tombstones)) && NearOf(p', z) == NearOf(p, z) && Pipe(p') == Pipe(p)
    requires var v, u := ViewOf(p, q, z), ViewOf(q, p, p.peers[z]);
             && v.inbound != [] && v.inbound[1..] == Select(Pipe(Taken(q)), To(z)) && u.outbound == v.inbound
    requires Select(Pipe(Taken(q)), From(p.peers[z])) == Select(Pipe(q), From(p.peers[z]))
    ensures var v := ViewOf(p, q, z); ViewOf(p', Taken(q), z) == v.(inbound := v.inbound[1..])
    ensures var u := ViewOf(q, p, p.peers[z]);
            ViewOf(Taken(q), p', p.peers[z]) == u.(far := FarOf(p'.e, z), outbound := u.outbound[1..])
  {
    hide Select, Pipe;
  }

  lemma LateDataPair(p: Side, q: Side, z: Id)
    requires PairInv(p, q) && z !in p.e.channels && q.wire != [] && q.wire[0].Data? && q.wire[0].receiver == z
    requires LocalInv(HandleData(p.e, z, q.wire[0].payload).0)
    ensures HandleData(p.e, z, q.wire[0].payload).1 == if FindTombstone(p.e.tombstones, z).Some? then Handled else Unknown
    ensures PairInv(p.(e := HandleData(p.e, z, q.wire[0].payload).0), Taken(q))
  {
    hide LinkInv, ViewOf, LocalInv, PairInv, Linked, Pipe, Select, SpendTombstone, FindTombstone, CountTombstones;
    var payload := q.wire[0].payload;
    HeadView(p, q, z);
    OrdinaryHead(p, q, z);
    MirrorFacts(p, q, z);
    var v, u := ViewOf(p, q, z), ViewOf(q, p, p.peers[z]);
    var p' := p.(e := HandleData(p.e, z, payload).0);
    InboundPop(v);
    LateDataLink(u);
    var t := FindTombstone(p.e.tombstones, z);
    if t.Some? {
      forall x: Id ensures CountTombstones(p'.e.tombstones, x) == CountTombstones(p.e.tombstones, x)
                           && FindTombstone(p'.e.tombstones, x) == if x == z then Some(Credits(t.value.frames - 1, t.value.bytes - |payload|)) else FindTombstone(p.e.tombstones, x) {
        SpendFacts(p.e.tombstones, z, |payload|, x);
      }
      assert FarOf(p'.e, z) == u.far.(tomb := Some(Credits(t.value.frames - 1, t.value.bytes - |payload|)));
    } else {
      assert FarOf(p'.e, z) == u.far;
    }
    LateReceive(p, q, p', z);
  }

  /** Adjust, Close and Closed for a channel that is gone change nothing. */
  lemma LateControlPair(p: Side, q: Side, z: Id)
    requires PairInv(p, q) && z !in p.e.channels && q.wire != [] && KeyOf(q.wire[0]) == To(z)
    requires q.wire[0].Adjust? || q.wire[0].Close? || q.wire[0].Closed?
    requires LocalInv(p.e)
    ensures PairInv(p, Taken(q))
  {
    hide LinkInv, ViewOf, LocalInv, PairInv, Linked, Pipe, Select, FindTombstone, CountTombstones;
    HeadView(p, q, z);
    OrdinaryHead(p, q, z);
    MirrorFacts(p, q, z);
    var v, u := ViewOf(p, q, z), ViewOf(q, p, p.peers[z]);
    assert v.near.snd.None? by { NoSender(p, q, z); }
    if q.wire[0].Adjust? { LateAdjustLink(v); } else { InboundPop(v); }
    if q.wire[0].Closed? { ClosedLink(u); } else { OutboundPop(u); }
    assert FarOf(p.e, z) == u.far;
    LateReceive(p, q, p, z);
  }

  lemma NoSender(p: Side, q: Side, z: Id)
    requires z !in p.e.channels
    ensures ViewOf(p, q, z).near.snd.None?
  {
  }
}
