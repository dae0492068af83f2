/** Forgetting closed channels, and the steps that concern no channel at all. */
module SystemCleanup {
  import opened Wrappers
  import opened FrameCodec
  import opened ConnectionLimits
  import opened OutgoingQueue
  import opened ReceiveWindow
  import opened Endpoint
  import opened EndpointSafety
  import opened Link
  import opened LinkSteps
  import opened LinkUpdates
  import opened Pipes
  import opened System
  import opened SystemSteps
  import opened SystemDelivery
  import opened SystemOpening
  import opened SystemLocal

  // ---------- Cleaning up a closed channel ----------

  lemma CleanupNearLink(v: View)
    requires LinkInv(v) && v.near.peer.Some? && v.near.snd.Some? && v.near.snd.value.dropped
    ensures v.near.awaiting == 0 && v.near.dead == 0
    ensures LinkInv(v.(near := v.near.(snd := None, remote := None, grave := v.near.snd, dead := 1)))
  {
    DirectionOf(v);
    assert v.near.awaiting == 0;
    NearCleanup(v.near, v.far, Total(v.outbound), Total(v.inbound).credit);
    var n := v.near.(snd := None, remote := None, grave := v.near.snd, dead := 1);
    assert Phased(v.id, n, v.inbound);
    hide LinkInv, DirectionInv, Total, Matched, Phased;
    Update(v, n, v.far, v.outbound, v.inbound);
  }

  lemma CleanupFarLink(u: View)
    requires LinkInv(u) && u.near.peer.Some? && u.far.rcv.Some? && u.far.rcv.value.dropped
    ensures LinkInv(u.(far := Far(None, 0, Some(u.far.rcv.value.credit))))
  {
    DirectionOf(u);
    FarCleanup(u.near, u.far, Total(u.outbound), Total(u.inbound).credit);
    hide LinkInv, DirectionInv, Total, Matched, Phased;
    ReceiverUpdate(u, Far(None, 0, Some(u.far.rcv.value.credit)), u.inbound);
  }

  lemma CleanupSameBut(p: Side, p': Side, z: Id, c: Channel)
    requires z in p.e.channels && c == p.e.channels[z] && CountTombstones(p.e.tombstones, z) == 0
    requires p' == p.(graves := p.graves[z := c],
                      e := p.e.(channels := p.e.channels - {z}, tombstones := p.e.tombstones + [Tombstone(z, c.receiver.credit)]))
    ensures NearSameBut(p, p', Some(z)) && SameBut(p.e, p'.e, Some(z)) && Pipe(p') == Pipe(p)
    ensures NearOf(p', z) == NearOf(p, z).(snd := None, remote := None, grave := Some(c.sender), dead := 1)
    ensures FarOf(p'.e, z) == Far(None, FarOf(p.e, z).awaiting, Some(c.receiver.credit))
  {
    hide CountTombstones, FindTombstone;
    var t := Tombstone(z, c.receiver.credit);
    FoundIffCounted(p.e.tombstones, z);
    BuryTombstone(p.e.tombstones, t, z);
    forall x: Id | x != z ensures
        && CountTombstones(p'.e.tombstones, x) == CountTombstones(p.e.tombstones, x)
        && FindTombstone(p'.e.tombstones, x) == FindTombstone(p.e.tombstones, x)
    {
      BuryTombstone(p.e.tombstones, t, x);
    }
  }

  /** Only the two views' near and far parts changed. */
  lemma QuietViews(p: Side, q: Side, p': Side, z: Id)
    requires z in p.peers && p.peers[z] in q.peers && q.peers[p.peers[z]] == z
    requires p'.peers == p.peers && p'.e.held == p.e.held && Pipe(p') == Pipe(p)
    ensures ViewOf(p', q, z) == ViewOf(p, q, z).(near := NearOf(p', z))
    ensures ViewOf(q, p', p.peers[z]) == ViewOf(q, p, p.peers[z]).(far := FarOf(p'.e, z))
  {
    hide Select, Pipe, NearOf, FarOf;
  }

  lemma QuietPair(p: Side, q: Side, p': Side, z: Id)
    requires PairInv(p, q) && LocalInv(p'.e) && z in p.peers
    requires p'.peers == p.peers && p'.e.held == p.e.held && Pipe(p') == Pipe(p) && p'.e.helloReceived == p.e.helloReceived
    requires NearSameBut(p, p', Some(z)) && SameBut(p.e, p'.e, Some(z))
    requires LinkInv(ViewOf(p, q, z).(near := NearOf(p', z)))
    requires LinkInv(ViewOf(q, p, p.peers[z]).(far := FarOf(p'.e, z)))
    ensures PairInv(p', q)
  {
    hide LinkInv, LocalInv, PairInv, Pipe, Select, NearOf, FarOf, Greets, PipeSameBut, SameBut, NearSameBut, HeldSameBut, ViewOf, Linked, Mirrored, Confined, HeldInitial;
    var w := p.peers[z];
    PairParts(p, q);
    MirrorFacts(p, q, z);
    QuietViews(p, q, p', z);
    SameSide(q);
    SamePipeSame(Pipe(p), Some(w), Some(z));
    SamePipeSame(Pipe(q), Some(z), Some(w));
    SamePeers(p, q, p', q);
    SameHeldCounts(q.e);
    EqualHeld(p.e, p'.e);
    ConfinedParts(p, q, p', q, z, w);
    Settle(p, q, p', q, Some(z), Some(w));
  }

  lemma EqualHeld(e: State, e': State)
    requires e'.held == e.held
    ensures (forall z: Option<Id> :: HeldSameBut(e, e', z)) && (HeldInitial(e) ==> HeldInitial(e'))
  {
  }

  lemma CleanupClosedPair(p: Side, q: Side, z: Id)
    requires PairInv(p, q) && z in p.e.channels && CleanupChannel(p.e, z) != p.e && LocalInv(CleanupChannel(p.e, z))
    ensures PairInv(p.(e := CleanupChannel(p.e, z), graves := p.graves[z := p.e.channels[z]]), q)
  {
    hide LinkInv, LocalInv, PairInv, Pipe, Select, Greets, PipeSameBut, SameBut, NearSameBut, CountTombstones, FindTombstone, Awaiting;
    var c := p.e.channels[z];
    var p' := p.(e := CleanupChannel(p.e, z), graves := p.graves[z := c]);
    ChannelFacts(p, q, z);
    MirrorFacts(p, q, z);
    CleanupNearLink(ViewOf(p, q, z));
    CleanupFarLink(ViewOf(q, p, c.remote));
    CleanupSameBut(p, p', z, c);
    QuietPair(p, q, p', z);
  }

  // ---------- Eviction ----------

  lemma EvictNearLink(v: View)
    requires LinkInv(v) && v.near.dead > 0
    ensures v.near.dead == 1 && v.near.awaiting == 0 && v.near.snd.None?
    ensures LinkInv(v.(near := v.near.(dead := 0)))
  {
    hide LinkInv, Total, DirectionInv;
    Parts(v);
    var n := v.near.(dead := 0);
    assert v.near.dead == 1 && v.near.awaiting == 0 && v.near.snd.None?;
    assert Phased(v.id, n, v.inbound);
    hide Phased, Matched;
    if v.near.peer.Some? {
      DirectionOf(v);
      DeadIrrelevant(v.near, v.far, Total(v.outbound), Total(v.inbound).credit);
      AllParts(v.(near := n));
    } else {
      WithoutPeer(v.(near := n));
    }
  }

  lemma DeadIrrelevant(n: Near, far: Far, out: Load, back: Credits)
    requires DirectionInv(n, far, out, back)
    ensures DirectionInv(n.(dead := 0), far, out, back)
  {
    hide Conserved, WindowInv, Tight, SenderInv, NoEmptyChunks, Arrived;
  }

  lemma EvictFarLink(u: View)
    requires LinkInv(u) && u.near.peer.Some? && u.far.rcv.None? && u.far.awaiting == 0
    ensures LinkInv(u.(far := u.far.(tomb := None)))
  {
    DirectionOf(u);
    FarEvicted(u.near, u.far, Total(u.outbound), Total(u.inbound).credit);
    hide LinkInv, DirectionInv, Total, Matched, Phased;
    ReceiverUpdate(u, u.far.(tomb := None), u.inbound);
  }

  lemma EvictSameBut(p: Side, p': Side, z: Id)
    requires p.e.tombstones != [] && z == p.e.tombstones[0].id && p' == p.(e := p.e.(tombstones := p.e.tombstones[1..]))
    requires CountTombstones(p.e.tombstones, z) == 1
    ensures NearSameBut(p, p', Some(z)) && SameBut(p.e, p'.e, Some(z)) && Pipe(p') == Pipe(p)
    ensures NearOf(p', z) == NearOf(p, z).(dead := 0) && FarOf(p'.e, z) == FarOf(p.e, z).(tomb := None)
  {
    FoundIffCounted(p'.e.tombstones, z);
  }

  lemma EvictPair(p: Side, q: Side)
    requires PairInv(p, q) && |p.e.tombstones| > p.e.limits.maxTombstones && LocalInv(EvictTombstone(p.e))
    ensures PairInv(p.(e := EvictTombstone(p.e)), q)
  {
    hide LinkInv, LocalInv, PairInv, Pipe, Select, Greets, PipeSameBut, SameBut, NearSameBut, FindTombstone, Awaiting, HeldInitial;
    var z := p.e.tombstones[0].id;
    var p' := p.(e := EvictTombstone(p.e));
    LinkOf(p, q, z);
    assert CountTombstones(p.e.tombstones, z) > 0;
    EvictNearLink(ViewOf(p, q, z));
    EvictSameBut(p, p', z);
    if z in p.peers {
      MirrorFacts(p, q, z);
      EvictFarLink(ViewOf(q, p, p.peers[z]));
      QuietPair(p, q, p', z);
    } else {
      PairParts(p, q);
      SameSide(q);
      SamePipeSame(Pipe(p), None, Some(z));
      SamePipeSame(Pipe(q), Some(z), None);
      assert ViewOf(p', q, z) == ViewOf(p, q, z).(near := NearOf(p', z));
      hide ViewOf, HeldSameBut;
      EqualHeld(p.e, p'.e);
      EqualHeld(q.e, q.e);
      SettleAlone(p, q, p', q, z);
    }
  }

  // ---------- Steps that concern no channel ----------

  /** Only the queue, the wire or the greeting changed. */
  lemma NeutralSame(p: Side, p': Side)
    requires p' == p.(e := p.e.(queue := p'.e.queue, helloReceived := p'.e.helloReceived), wire := p'.wire)
    ensures NearSameBut(p, p', None) && SameBut(p.e, p'.e, None)
  {
  }

  lemma NeutralPair(p: Side, q: Side, p': Side, q': Side)
    requires PairInv(p, q) && LocalInv(p'.e)
    requires p' == p.(e := p.e.(queue := p'.e.queue, helloReceived := p'.e.helloReceived), wire := p'.wire) && q' == q.(wire := q'.wire)
    requires PipeSameBut(Pipe(p), Pipe(p'), None, None) && PipeSameBut(Pipe(q), Pipe(q'), None, None)
    requires Greets(Pipe(p'), q'.e.helloReceived) && Greets(Pipe(q'), p'.e.helloReceived)
    ensures PairInv(p', q')
  {
    hide LinkInv, LocalInv, PairInv, Pipe, Select, Greets, PipeSameBut, SameBut, NearSameBut;
    PairParts(p, q);
    NeutralSame(p, p');
    NeutralSame(q, q');
    Unconcerned(p, q, p', q');
  }

  lemma TransmitPair(p: Side, q: Side)
    requires PairInv(p, q) && LocalInv(TransmitStep(p).e)
    ensures PairInv(TransmitStep(p), q) && Pipe(TransmitStep(p)) == Pipe(p)
  {
    hide LinkInv, LocalInv, PairInv, Select, Greets;
    var p' := TransmitStep(p);
    if p' != p {
      assert p.e.queue.frames == [p.e.queue.frames[0]] + p.e.queue.frames[1..];
    }
    assert Pipe(p') == Pipe(p);
    PairParts(p, q);
    SamePipeSame(Pipe(p), None, None);
    SamePipeSame(Pipe(q), None, None);
    hide Pipe;
    NeutralPair(p, q, p', q);
  }

  /** A Ping or Pong joins the queue without disturbing the greeting. */
  lemma PriorityGreets(p: Side, f: Frame, received: bool)
    requires p.e.limits.Valid() && IsPriority(f) && Greets(Pipe(p), received)
    requires !p.e.closing && !SendPriority(p.e, f).closing
    ensures var p' := p.(e := SendPriority(p.e, f));
            p'.e == p.e.(queue := p'.e.queue) && Greets(Pipe(p'), received)
  {
    var fs := p.e.queue.frames;
    var k := PriorityPosition(p, f);
    assert !received ==> k > 0 by {
      if !received && p.wire == [] { assert fs[0] == Pipe(p)[0]; }
    }
    hide Greets, Pipe;
    InsertGreets(Pipe(p), k, f, received);
  }

  /** Where the frame goes: at the front of the queue, behind an unsent Hello. */
  lemma PriorityPosition(p: Side, f: Frame) returns (k: nat)
    requires p.e.limits.Valid() && !p.e.closing && !SendPriority(p.e, f).closing
    ensures var p' := p.(e := SendPriority(p.e, f));
            p'.e == p.e.(queue := p'.e.queue) && k <= |Pipe(p)| && Pipe(p') == Pipe(p)[..k] + [f] + Pipe(p)[k..]
    ensures k == |p.wire| + if p.e.queue.frames != [] && p.e.queue.frames[0].Hello? then 1 else 0
  {
    var fs := p.e.queue.frames;
    k := |p.wire| + if fs != [] && fs[0].Hello? then 1 else 0;
    var p' := p.(e := SendPriority(p.e, f));
    if fs != [] && fs[0].Hello? {
      assert fs == [fs[0]] + fs[1..];
      assert Pipe(p') == Pipe(p)[..k] + [f] + Pipe(p)[k..];
    } else {
      assert Pipe(p') == Pipe(p)[..k] + [f] + Pipe(p)[k..];
    }
  }

  lemma InsertGreets(pipe: seq<Frame>, k: nat, f: Frame, received: bool)
    requires Greets(pipe, received) && k <= |pipe| && IsPriority(f) && (!received ==> k > 0)
    ensures Greets(pipe[..k] + [f] + pipe[k..], received)
  {
    var pipe' := pipe[..k] + [f] + pipe[k..];
    forall i | 0 <= i < |pipe'|
      ensures (pipe'[i].Hello? ==> i == 0 && !received) && (pipe'[i].Adjust? ==> 0 < pipe'[i].frames)
    {
      if i < k { assert pipe'[i] == pipe[i]; } else if i > k { assert pipe'[i] == pipe[i - 1]; }
    }
  }

  lemma PriorityPipe(p: Side, f: Frame)
    requires p.e.limits.Valid() && IsPriority(f) && !p.e.closing && !SendPriority(p.e, f).closing
    ensures PipeSameBut(Pipe(p), Pipe(p.(e := SendPriority(p.e, f))), None, None)
  {
    forall k: Key | k != Nobody ensures Select(Pipe(p.(e := SendPriority(p.e, f))), k) == Select(Pipe(p), k) {
      PrioritySelect(p.wire, p.e.queue, f, p.e.limits, k);
    }
    hide Pipe, Select;
  }

  lemma PingPair(p: Side, q: Side)
    requires PairInv(p, q) && !p.e.closing && p.e.limits.Valid() && !SendPriority(p.e, Ping).closing && LocalInv(SendPriority(p.e, Ping))
    ensures PairInv(p.(e := SendPriority(p.e, Ping)), q)
  {
    hide LinkInv, LocalInv, PairInv, Select, Greets, Pipe, PipeSameBut, SendPriority;
    PairParts(p, q);
    PriorityGreets(p, Ping, q.e.helloReceived);
    PriorityPipe(p, Ping);
    SamePipeSame(Pipe(q), None, None);
    NeutralPair(p, q, p.(e := SendPriority(p.e, Ping)), q);
  }

  lemma TakenNobody(p: Side, q: Side)
    requires PairInv(p, q) && q.wire != [] && KeyOf(q.wire[0]) == Nobody
    ensures PipeSameBut(Pipe(q), Pipe(Taken(q)), None, None)
    ensures Greets(Pipe(Taken(q)), p.e.helloReceived || q.wire[0].Hello?)
  {
    TakenPipe(q);
    PairParts(p, q);
    hide PairInv, Pipe, Select;
    PipePop(Pipe(q), None, None, p.e.helloReceived);
  }

  lemma HelloPair(p: Side, q: Side)
    requires PairInv(p, q) && q.wire != [] && q.wire[0].Hello?
    ensures !p.e.helloReceived && q.wire[0] == HelloFrame()
    ensures LocalInv(p.e.(helloReceived := true)) ==> PairInv(p.(e := p.e.(helloReceived := true)), Taken(q))
  {
    hide LinkInv, LocalInv, PairInv, Select;
    PairParts(p, q);
    TakenPipe(q);
    TakenNobody(p, q);
    assert !p.e.helloReceived && q.wire[0] == HelloFrame();
    var p' := p.(e := p.e.(helloReceived := true));
    SamePipe(p, p');
    hide Pipe, Greets, PipeSameBut;
    SamePipeSame(Pipe(p), None, None);
    if LocalInv(p'.e) { NeutralPair(p, q, p', Taken(q)); }
  }

  lemma PongPair(p: Side, q: Side)
    requires PairInv(p, q) && q.wire != [] && KeyOf(q.wire[0]) == Nobody && !q.wire[0].Hello?
    ensures PairInv(p, Taken(q))
    ensures p.e.limits.Valid() && !p.e.closing && !SendPriority(p.e, Pong).closing && LocalInv(SendPriority(p.e, Pong)) ==>
              PairInv(p.(e := SendPriority(p.e, Pong)), Taken(q))
  {
    hide LinkInv, LocalInv, PairInv, Select, Greets, Pipe, PipeSameBut, SendPriority;
    PairParts(p, q);
    TakenNobody(p, q);
    SamePipeSame(Pipe(p), None, None);
    NeutralPair(p, q, p, Taken(q));
    if p.e.limits.Valid() && !p.e.closing && !SendPriority(p.e, Pong).closing && LocalInv(SendPriority(p.e, Pong)) {
      PriorityGreets(p, Pong, q.e.helloReceived);
      PriorityPipe(p, Pong);
      NeutralPair(p, q, p.(e := SendPriority(p.e, Pong)), Taken(q));
    }
  }
}
