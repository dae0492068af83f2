/** One channel id at one endpoint, seen together with everything that concerns it elsewhere: the
    frames under way in both directions and the state of its counterpart at the peer. */
module Link {
  import opened Wrappers
  import opened FrameCodec
  import opened ConnectionLimits
  import opened ReceiveWindow
  import opened Endpoint

  // ---------- What a sequence of frames carries ----------

  /** Totals over frames: data frames with their payload, credit being returned, answers to an open,
      whether the end of the stream is among them, and two things that must never occur: data after
      the end of the stream, and data without payload. */
  datatype Load = Load(frames: nat, payload: Bytes, credit: Credits, answers: nat,
                       closed: bool, misplaced: bool, empty: bool)

  const NOTHING: Load := Load(0, [], Credits(0, 0), 0, false, false, false)

  function Add(a: Credits, b: Credits): Credits { Credits(a.frames + b.frames, a.bytes + b.bytes) }

  function Plus(a: Load, b: Load): Load {
    Load(a.frames + b.frames, a.payload + b.payload, Add(a.credit, b.credit), a.answers + b.answers,
         a.closed || b.closed, a.misplaced || b.misplaced || (a.closed && b.frames > 0), a.empty || b.empty)
  }

  function LoadOf(f: Frame): Load {
    match f
    case Data(_, payload) => NOTHING.(frames := 1, payload := payload, empty := payload == [])
    case Adjust(_, frames, bytes) => NOTHING.(credit := Credits(frames, bytes))
    case Accept(_, _, _, _) => NOTHING.(answers := 1)
    case Reject(_, _) => NOTHING.(answers := 1)
    case Closed(_, _) => NOTHING.(closed := true)
    case _ => NOTHING
  }

  function Total(fs: seq<Frame>): Load {
    if fs == [] then NOTHING else Plus(LoadOf(fs[0]), Total(fs[1..]))
  }

  lemma PlusAssociative(a: Load, b: Load, c: Load)
    ensures Plus(Plus(a, b), c) == Plus(a, Plus(b, c))
  {
    assert (a.payload + b.payload) + c.payload == a.payload + (b.payload + c.payload);
  }

  lemma PlusNothing(a: Load)
    ensures Plus(NOTHING, a) == Plus(a, NOTHING) == a
  {
    assert [] + a.payload == a.payload + [] == a.payload;
  }

  lemma TotalHead(fs: seq<Frame>)
    requires fs != []
    ensures Total(fs) == Plus(LoadOf(fs[0]), Total(fs[1..]))
  {
  }

  lemma {:induction false} TotalPush(fs: seq<Frame>, f: Frame)
    ensures Total(fs + [f]) == Plus(Total(fs), LoadOf(f))
  {
    hide Plus, LoadOf;
    if fs == [] {
      assert fs + [f] == [f] && [f][1..] == [];
      TotalHead([f]);
      PlusNothing(LoadOf(f));
    } else {
      TotalHead(fs);
      TotalHead(fs + [f]);
      assert (fs + [f])[1..] == fs[1..] + [f];
      TotalPush(fs[1..], f);
      hide Total;
      PlusAssociative(LoadOf(fs[0]), Total(fs[1..]), LoadOf(f));
    }
  }

  lemma {:induction false} NoDataNoPayload(fs: seq<Frame>)
    ensures Total(fs).frames == 0 ==> Total(fs).payload == []
  {
    if fs != [] { NoDataNoPayload(fs[1..]); }
  }

  // ---------- The view of one id ----------

  /** The id at its own endpoint.
      - `peer`: its counterpart's id, once the channel was accepted on either side;
      - `snd`, `remote`: the sender half and remote id of its channel, if the channel is open;
        `grave`: the sender half as it was when the channel was cleaned up;
      - `awaiting`: how often the id occurs among pending and cancelled opens;
      - `dead`: how many local tombstones carry the id; `unallocated`: the id was never assigned. */
  datatype Near = Near(
    peer: Option<Id>,
    unallocated: bool,
    snd: Option<Sender>,
    remote: Option<Id>,
    grave: Option<Sender>,
    awaiting: nat,
    dead: nat)

  /** The counterpart: its receiver half, its open request, or its tombstone. */
  datatype Far = Far(rcv: Option<Receiver>, awaiting: nat, tomb: Option<Credits>)

  /** Local id `id`, the frames under way to it and to its counterpart (answers included), its open
      request under way or held by the peer, and the counterpart. */
  datatype View = View(
    id: Id,
    near: Near,
    inbound: seq<Frame>,
    outbound: seq<Frame>,
    requests: seq<Frame>,
    heldByPeer: nat,
    far: Far)

  /** The open request or its answer is in exactly one place exactly while the open is awaited. */
  ghost predicate Matched(requests: seq<Frame>, heldByPeer: nat, answers: nat, awaiting: nat) {
    && |requests| + heldByPeer + answers == awaiting <= 1
    && forall i :: 0 <= i < |requests| ==>
         requests[i].Request? && Credits(requests[i].frames, requests[i].bytes) == INITIAL_CREDITS
  }

  /** An accept is ahead of everything else the peer sent to the id, and carries the initial credit. */
  ghost predicate AcceptAhead(id: Id, peer: Id, inbound: seq<Frame>) {
    inbound != [] && inbound[0] == Accept(id, peer, INITIAL_FRAME_CREDIT, INITIAL_BYTE_CREDIT)
  }

  ghost predicate Phased(id: Id, n: Near, inbound: seq<Frame>) {
    && (n.unallocated ==> n.awaiting == 0 && n.peer.None? && n.dead == 0)
    && (n.snd.Some? <==> n.remote.Some?)
    && (n.snd.Some? ==> n.remote == n.peer && n.awaiting == 0 && n.dead == 0 && n.grave.None?)
    && (n.awaiting > 0 ==> n.dead == 0 && n.grave.None?)
    && n.dead <= 1
    && (n.peer.None? ==> && n.snd.None? && n.grave.None?
                         && (inbound != [] ==> n.awaiting > 0 && |inbound| == 1 && inbound[0].Reject?))
    && (n.peer.Some? && n.awaiting > 0 ==> AcceptAhead(id, n.peer.value, inbound))
  }

  /** The receive credit that still protects against data sent to the counterpart. */
  function ReceiveCredit(far: Far): Option<Credits> {
    if far.rcv.Some? then Some(far.rcv.value.credit)
    else if far.awaiting > 0 then Some(INITIAL_CREDITS)
    else far.tomb
  }

  /** The send credit at the id, or what its accept will bring. */
  function SendCredit(n: Near): Option<Credits> {
    if n.snd.Some? then Some(n.snd.value.credit)
    else if n.awaiting > 0 then Some(INITIAL_CREDITS)
    else None
  }

  /** Receive credit == send credit + data under way + credit under way back; once the sender is
      gone its credit only bounds what is still under way. */
  ghost predicate Conserved(receive: Option<Credits>, send: Option<Credits>, frames: nat, bytes: nat, back: Credits) {
    && (receive.Some? ==> frames <= receive.value.frames && bytes <= receive.value.bytes)
    && (send.Some? && receive.Some? ==>
          receive.value.frames == send.value.frames + frames + back.frames
          && receive.value.bytes == send.value.bytes + bytes + back.bytes)
    && (send.Some? ==> send.value.frames + back.frames <= U32_MAX && send.value.bytes + back.bytes <= U32_MAX)
  }

  function SenderOf(n: Near): Option<Sender> { if n.snd.Some? then n.snd else n.grave }

  /** What the peer's reader has or will have in hand. */
  function Delivered(far: Far): Bytes { if far.rcv.Some? then Arrived(far.rcv.value) else [] }

  ghost predicate ReaderAlive(far: Far) {
    if far.rcv.Some? then !far.rcv.value.dropped else far.awaiting > 0
  }

  ghost predicate NoEmptyChunks(r: Receiver) {
    && (forall i :: 0 <= i < |r.buffer| ==> r.buffer[i] != [])
    && (r.partial.Some? ==> r.partial.value != [])
  }

  /** Accepted bytes == delivered ++ under way ++ not yet sent, and no chunk is empty. */
  ghost predicate Streamed(snd: Option<Sender>, far: Far, out: Load) {
    && (snd.Some? && ReaderAlive(far) ==> snd.value.accepted == Delivered(far) + out.payload + Unsent(snd.value))
    && (snd.None? ==> out.frames == 0 && (ReaderAlive(far) ==> Delivered(far) == []))
    && !out.empty
    && (far.rcv.Some? ==> NoEmptyChunks(far.rcv.value))
  }

  /** The peer's live reader knows that nothing more will arrive. */
  ghost predicate SawEnd(far: Far) { far.rcv.Some? && far.rcv.value.closed && !far.rcv.value.dropped }

  /** The sender half will send nothing more. */
  ghost predicate Finished(n: Near) {
    if SenderOf(n).Some? then SenderOf(n).value.closed && (SenderOf(n).value.closedSent || SenderOf(n).value.dropped)
    else n.awaiting == 0
  }

  /** There is, or will be, a receiver half to tell. */
  predicate Listening(far: Far) { far.rcv.Some? || far.awaiting > 0 }

  /** The end of the stream is announced exactly when the sender has finished; nothing follows it. */
  ghost predicate Ended(n: Near, far: Far, out: Load) {
    && (out.closed || SawEnd(far) ==> Finished(n))
    && (Finished(n) && Listening(far) ==> out.closed || (far.rcv.Some? && far.rcv.value.closed))
    && !out.misplaced
    && (SawEnd(far) ==> out.frames == 0)
  }

  ghost predicate HalvesInv(n: Near, far: Far) {
    && (n.snd.Some? ==> SenderInv(n.snd.value, U32_MAX))
    && (n.grave.Some? ==> SenderInv(n.grave.value, U32_MAX) && n.grave.value.dropped)
    && (far.rcv.Some? ==> far.awaiting == 0 && WindowInv(far.rcv.value) && Tight(far.rcv.value))
  }

  ghost predicate DirectionInv(n: Near, far: Far, out: Load, back: Credits) {
    && Conserved(ReceiveCredit(far), SendCredit(n), out.frames, |out.payload|, back)
    && Streamed(SenderOf(n), far, out)
    && Ended(n, far, out)
    && HalvesInv(n, far)
  }

  ghost predicate LinkInv(v: View) {
    && Matched(v.requests, v.heldByPeer, Total(v.inbound).answers, v.near.awaiting)
    && Phased(v.id, v.near, v.inbound)
    && (v.near.peer.None? ==> v.far.rcv.None? && v.outbound == [])
    && (v.near.peer.Some? ==> DirectionInv(v.near, v.far, Total(v.outbound), Total(v.inbound).credit))
  }

  // ---------- Frames that do not concern a direction ----------

  /** Frames to the id that carry neither credit nor an answer. */
  predicate InboundNeutral(f: Frame) { f.Data? || f.Close? || f.Closed? }

  /** Frames to the counterpart that carry neither data nor an end of stream. */
  predicate OutboundNeutral(f: Frame) { f.Adjust? || f.Close? || f.Accept? || f.Reject? }

  /** The load agrees on everything the forward direction is judged by. */
  ghost predicate SameData(a: Load, b: Load) {
    && a.frames == b.frames && a.payload == b.payload && a.closed == b.closed
    && a.misplaced == b.misplaced && a.empty == b.empty
  }

  lemma QuietPlus(f: Frame, t: Load)
    ensures OutboundNeutral(f) ==> SameData(Plus(LoadOf(f), t), t) && SameData(Plus(t, LoadOf(f)), t)
    ensures InboundNeutral(f) ==> Plus(LoadOf(f), t).credit == t.credit == Plus(t, LoadOf(f)).credit
                                  && Plus(LoadOf(f), t).answers == t.answers == Plus(t, LoadOf(f)).answers
  {
    assert [] + t.payload == t.payload + [] == t.payload;
  }

  lemma PushData(fs: seq<Frame>, f: Frame)
    requires OutboundNeutral(f)
    ensures SameData(Total(fs + [f]), Total(fs))
  {
    TotalPush(fs, f);
    QuietPlus(f, Total(fs));
    hide Total, Plus, LoadOf;
  }

  lemma PopData(fs: seq<Frame>)
    requires fs != [] && OutboundNeutral(fs[0])
    ensures SameData(Total(fs[1..]), Total(fs))
  {
    TotalHead(fs);
    QuietPlus(fs[0], Total(fs[1..]));
    hide Total, Plus, LoadOf;
  }

  lemma PushCredit(fs: seq<Frame>, f: Frame)
    requires InboundNeutral(f)
    ensures Total(fs + [f]).credit == Total(fs).credit && Total(fs + [f]).answers == Total(fs).answers
  {
    TotalPush(fs, f);
    QuietPlus(f, Total(fs));
    hide Total, Plus, LoadOf;
  }

  lemma PopCredit(fs: seq<Frame>)
    requires fs != [] && InboundNeutral(fs[0])
    ensures Total(fs[1..]).credit == Total(fs).credit && Total(fs[1..]).answers == Total(fs).answers
  {
    TotalHead(fs);
    QuietPlus(fs[0], Total(fs[1..]));
    hide Total, Plus, LoadOf;
  }

  lemma NewOutbound(v: View, fs: seq<Frame>)
    requires LinkInv(v) && v.near.peer.Some? && SameData(Total(fs), Total(v.outbound))
    ensures LinkInv(v.(outbound := fs))
  {
    hide Total, Conserved, HalvesInv, Matched, Phased;
  }

  lemma NewInbound(v: View, fs: seq<Frame>)
    requires LinkInv(v) && v.near.peer.Some? && Phased(v.id, v.near, fs)
    requires Total(fs).credit == Total(v.inbound).credit && Total(fs).answers == Total(v.inbound).answers
    ensures LinkInv(v.(inbound := fs))
  {
    hide Total, DirectionInv, Matched, Phased;
  }

  lemma InboundPush(v: View, f: Frame)
    requires LinkInv(v) && v.near.peer.Some? && InboundNeutral(f)
    ensures LinkInv(v.(inbound := v.inbound + [f]))
  {
    PushCredit(v.inbound, f);
    hide Total, DirectionInv, Matched;
    NewInbound(v, v.inbound + [f]);
  }

  lemma InboundPop(v: View)
    requires LinkInv(v) && v.near.peer.Some? && v.inbound != [] && InboundNeutral(v.inbound[0])
    ensures LinkInv(v.(inbound := v.inbound[1..])) && v.near.awaiting == 0
  {
    PopCredit(v.inbound);
    hide Total, DirectionInv, Matched;
    NewInbound(v, v.inbound[1..]);
  }

  lemma OutboundPush(v: View, f: Frame)
    requires LinkInv(v) && v.near.peer.Some? && OutboundNeutral(f)
    ensures LinkInv(v.(outbound := v.outbound + [f]))
  {
    PushData(v.outbound, f);
    hide *;
    NewOutbound(v, v.outbound + [f]);
  }

  lemma OutboundPop(v: View)
    requires LinkInv(v) && v.near.peer.Some? && v.outbound != [] && OutboundNeutral(v.outbound[0])
    ensures LinkInv(v.(outbound := v.outbound[1..]))
  {
    PopData(v.outbound);
    hide *;
    NewOutbound(v, v.outbound[1..]);
  }
}
