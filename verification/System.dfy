/** Frames of a pipe that concern one id. */
module Pipes {
  import opened Wrappers
  import opened FrameCodec
  import opened ConnectionLimits
  import opened OutgoingQueue
  import opened Endpoint

  /** Whom a frame concerns: the id it is addressed to, or the sender of an open request. */
  datatype Key = To(id: Id) | From(id: Id) | Nobody

  function KeyOf(f: Frame): Key {
    match f
    case Request(sender, _, _, _) => From(sender)
    case Accept(receiver, _, _, _) => To(receiver)
    case Reject(receiver, _) => To(receiver)
    case Data(receiver, _) => To(receiver)
    case Adjust(receiver, _, _) => To(receiver)
    case Close(receiver, _) => To(receiver)
    case Closed(receiver, _) => To(receiver)
    case _ => Nobody
  }

  function Select(fs: seq<Frame>, k: Key): seq<Frame> {
    if fs == [] then [] else (if KeyOf(fs[0]) == k then [fs[0]] else []) + Select(fs[1..], k)
  }

  lemma {:induction false} SelectConcat(a: seq<Frame>, b: seq<Frame>, k: Key)
    ensures Select(a + b, k) == Select(a, k) + Select(b, k)
  {
    hide KeyOf;
    if a == [] {
      assert a + b == b;
    } else {
      SelectConcat(a[1..], b, k);
      assert (a + b)[1..] == a[1..] + b;
    }
  }

  lemma SelectOne(f: Frame, k: Key)
    ensures Select([f], k) == if KeyOf(f) == k then [f] else []
  {
    assert [f][1..] == [];
  }

  lemma SelectPush(fs: seq<Frame>, f: Frame, k: Key)
    ensures Select(fs + [f], k) == if KeyOf(f) == k then Select(fs, k) + [f] else Select(fs, k)
  {
    SelectConcat(fs, [f], k);
    SelectOne(f, k);
  }

  lemma SelectHead(fs: seq<Frame>, k: Key)
    requires fs != []
    ensures Select(fs, k) == if KeyOf(fs[0]) == k then [fs[0]] + Select(fs[1..], k) else Select(fs[1..], k)
  {
  }

  /** The priority lane is invisible to every channel. */
  lemma PrioritySelect(wire: seq<Frame>, q: Queue, f: Frame, l: Limits, k: Key)
    requires IsPriority(f) && TryQueuePriority(q, f, l).Queued? && k != Nobody
    ensures Select(wire + TryQueuePriority(q, f, l).queue.frames, k) == Select(wire + q.frames, k)
  {
    var fs := q.frames;
    var fs' := TryQueuePriority(q, f, l).queue.frames;
    SelectConcat(wire, fs, k);
    SelectConcat(wire, fs', k);
    if fs != [] && fs[0].Hello? {
      assert fs' == [fs[0]] + ([f] + fs[1..]);
      SelectHead(fs', k);
      SelectHead([f] + fs[1..], k);
    } else {
      SelectHead(fs', k);
    }
  }
}

/** Two endpoints joined by two first-in first-out wires. */
module System {
  import opened Wrappers
  import opened FrameCodec
  import opened ConnectionLimits
  import opened OutgoingQueue
  import opened ReceiveWindow
  import opened Endpoint
  import opened EndpointSafety
  import opened Link
  import opened LinkSteps
  import opened Pipes

  /** An endpoint, the frames it has handed to its transport that have not arrived, and two
      histories: the counterpart of every id whose channel was accepted, and every channel as it
      was when it was cleaned up. */
  datatype Side = Side(e: State, wire: seq<Frame>, peers: map<Id, Id>, graves: map<Id, Channel>)

  datatype System = System(a: Side, b: Side)

  /** Everything under way from this side, oldest first. */
  function Pipe(p: Side): seq<Frame> { p.wire + p.e.queue.frames }

  predicate Up(p: Side, q: Side) { !p.e.closing && !q.e.closing }

  // ---------- Steps ----------

  /** What one side does next: something local, handing its oldest frame to the transport, or
      processing the oldest frame from the other side. */
  datatype Action = Local(v: Event) | Transmit | Deliver

  function LocalStep(p: Side, q: Side, v: Event): (Side, Side)
    requires p.e.limits.Valid()
  {
    if v.Receive? || v.PopFrame? then (p, q)
    else
      var p' := p.(e := Perform(p.e, v));
      if v.AcceptHeld? && p.e.nextId in p'.e.channels && p.e.nextId !in p.e.channels then
        (p'.(peers := p.peers[p.e.nextId := v.r.remote]), q.(peers := q.peers[v.r.remote := p.e.nextId]))
      else if v.CleanupClosed? && v.id in p.e.channels && v.id !in p'.e.channels then
        (p'.(graves := p.graves[v.id := p.e.channels[v.id]]), q)
      else (p', q)
  }

  function TransmitStep(p: Side): Side {
    if p.e.queue.frames == [] then p
    else p.(e := PopQueue(p.e), wire := p.wire + if PopQueue(p.e) == p.e then [] else [p.e.queue.frames[0]])
  }

  function DeliverStep(p: Side, q: Side): (Side, Side)
    requires p.e.limits.Valid()
  {
    if q.wire == [] then (p, q) else (p.(e := Receiving(p.e, q.wire[0])), q.(wire := q.wire[1..]))
  }

  /** A frame larger than this side allows, a violation, or a failed assertion ends the connection. */
  function Receiving(e: State, f: Frame): State
    requires e.limits.Valid()
  {
    if FrameLength(f) > e.limits.maxFrameSize then e.(closing := true) else
    var (e', outcome) := Handle(e, f);
    if outcome.Violates? || outcome.SlotAssertion? then e'.(closing := true) else e'
  }

  /** Nothing happens once either endpoint is closing. */
  function Act(p: Side, q: Side, action: Action): (Side, Side)
    requires p.e.limits.Valid()
  {
    if !Up(p, q) then (p, q)
    else match action
      case Local(v) => LocalStep(p, q, v)
      case Transmit => (TransmitStep(p), q)
      case Deliver => DeliverStep(p, q)
  }

  // ---------- The invariant ----------

  function Awaiting(e: State, id: Id): nat {
    (if id in e.pending then 1 else 0) + multiset(e.cancelled)[id]
  }

  function CountTombstones(ts: seq<Tombstone>, id: Id): nat {
    if ts == [] then 0 else (if ts[0].id == id then 1 else 0) + CountTombstones(ts[1..], id)
  }

  function NearOf(p: Side, x: Id): Near {
    var c := if x in p.e.channels then Some(p.e.channels[x]) else None;
    Near(if x in p.peers then Some(p.peers[x]) else None,
         x >= p.e.nextId,
         if c.Some? then Some(c.value.sender) else None,
         if c.Some? then Some(c.value.remote) else None,
         if x in p.graves then Some(p.graves[x].sender) else None,
         Awaiting(p.e, x),
         CountTombstones(p.e.tombstones, x))
  }

  function FarOf(e: State, y: Id): Far {
    Far(if y in e.channels then Some(e.channels[y].receiver) else None, Awaiting(e, y), FindTombstone(e.tombstones, y))
  }

  function ViewOf(p: Side, q: Side, x: Id): View {
    View(x, NearOf(p, x),
         Select(Pipe(q), To(x)),
         if x in p.peers then Select(Pipe(p), To(p.peers[x])) else [],
         Select(Pipe(p), From(x)),
         q.e.held[Incoming(x, INITIAL_CREDITS)],
         if x in p.peers then FarOf(q.e, p.peers[x]) else Far(None, 0, None))
  }

  ghost predicate Links(p: Side, q: Side) {
    forall x: Id :: LinkInv(ViewOf(p, q, x))
  }

  /** Counterparts point at each other. */
  ghost predicate Mirrored(p: Side, q: Side) {
    forall x :: x in p.peers ==> p.peers[x] in q.peers && q.peers[p.peers[x]] == x
  }

  ghost predicate HeldInitial(e: State) {
    forall r :: r in e.held ==> r.credit == INITIAL_CREDITS
  }

  /** Until the peer has processed it, the Hello is the oldest frame under way; it is the only one.
      Every Adjust carries frame credit. */
  ghost predicate Greets(pipe: seq<Frame>, received: bool) {
    && (!received ==> pipe != [] && pipe[0] == HelloFrame())
    && (forall i :: 0 <= i < |pipe| && pipe[i].Hello? ==> i == 0 && !received)
    && (forall i :: 0 <= i < |pipe| && pipe[i].Adjust? ==> 0 < pipe[i].frames)
  }

  ghost predicate HalfInv(p: Side, q: Side) {
    && LocalInv(p.e)
    && Links(p, q)
    && Mirrored(p, q)
    && HeldInitial(p.e)
    && Greets(Pipe(p), q.e.helloReceived)
  }

  ghost predicate PairInv(p: Side, q: Side) {
    HalfInv(p, q) && HalfInv(q, p)
  }

  // ---------- Frame conditions ----------

  /** The endpoint treats every id but `z` as before. */
  ghost predicate SameBut(e: State, e': State, z: Option<Id>) {
    forall x: Id :: Some(x) != z ==> FarOf(e', x) == FarOf(e, x)
  }

  ghost predicate NearSameBut(p: Side, p': Side, z: Option<Id>) {
    forall x: Id :: Some(x) != z ==> NearOf(p', x) == NearOf(p, x)
  }

  /** The two ids, if given, are counterparts and nobody else's. */
  ghost predicate Linked(p: Side, q: Side, z: Option<Id>, w: Option<Id>) {
    && (forall x: Id :: x in p.peers && Some(p.peers[x]) == w ==> Some(x) == z)
    && (forall y: Id :: y in q.peers && Some(q.peers[y]) == z ==> Some(y) == w)
  }

  /** The pipe changed only for these two keys. */
  ghost predicate PipeSameBut(pipe: seq<Frame>, pipe': seq<Frame>, to: Option<Id>, from: Option<Id>) {
    && (forall y: Id :: Some(y) != to ==> Select(pipe', To(y)) == Select(pipe, To(y)))
    && (forall x: Id :: Some(x) != from ==> Select(pipe', From(x)) == Select(pipe, From(x)))
  }

  ghost predicate HeldSameBut(e: State, e': State, w: Option<Id>) {
    forall x: Id :: Some(x) != w ==> e'.held[Incoming(x, INITIAL_CREDITS)] == e.held[Incoming(x, INITIAL_CREDITS)]
  }

  /** A step that concerns local id `z` and the other side's id `w` leaves every other view alone. */
  ghost predicate Confined(p: Side, q: Side, p': Side, q': Side, z: Option<Id>, w: Option<Id>) {
    && Linked(p, q, z, w)
    && NearSameBut(p, p', z) && NearSameBut(q, q', w) && SameBut(p.e, p'.e, z) && SameBut(q.e, q'.e, w)
    && PipeSameBut(Pipe(p), Pipe(p'), w, z) && PipeSameBut(Pipe(q), Pipe(q'), z, w)
    && HeldSameBut(p.e, p'.e, w) && HeldSameBut(q.e, q'.e, z)
  }

  lemma Elsewhere(p: Side, q: Side, p': Side, q': Side, z: Option<Id>, w: Option<Id>, x: Id)
    requires Confined(p, q, p', q', z, w) && Some(x) != z
    ensures ViewOf(p', q', x) == ViewOf(p, q, x)
  {
    assert NearOf(p', x) == NearOf(p, x);
    assert x in p'.peers <==> x in p.peers by { assert NearOf(p', x).peer == NearOf(p, x).peer; }
    if x in p.peers {
      assert p'.peers[x] == p.peers[x] by { assert NearOf(p', x).peer == NearOf(p, x).peer; }
      assert Some(p.peers[x]) != w;
    }
    hide FarOf, NearOf, Select, Pipe;
  }

  lemma LinksElsewhere(p: Side, q: Side, p': Side, q': Side, z: Option<Id>, w: Option<Id>)
    requires Links(p, q) && Confined(p, q, p', q', z, w)
    requires z.Some? ==> LinkInv(ViewOf(p', q', z.value))
    ensures Links(p', q')
  {
    hide LinkInv, ViewOf, Confined;
    forall x: Id ensures LinkInv(ViewOf(p', q', x)) {
      if Some(x) != z {
        Elsewhere(p, q, p', q', z, w, x);
        assert LinkInv(ViewOf(p, q, x));
      }
    }
  }

  lemma ConfinedBothWays(p: Side, q: Side, p': Side, q': Side, z: Option<Id>, w: Option<Id>)
    requires Confined(p, q, p', q', z, w)
    ensures Confined(q, p, q', p', w, z)
  {
    hide NearSameBut, SameBut, PipeSameBut, HeldSameBut;
  }
}
