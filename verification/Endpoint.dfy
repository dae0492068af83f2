/** One endpoint of a multiplex connection as a value: the state a `Connection` shares with its
    channel halves, and one function per atomic operation on it. */
module Endpoint {
  import opened Wrappers
  import opened FrameCodec
  import opened ConnectionLimits
  import opened OutgoingQueue
  import opened ReceiveWindow

  type Id = nat

  datatype Channel = Channel(remote: Id, sender: Sender, receiver: Receiver)

  /** A closed channel's unused receive credit, kept to recognise late data. */
  datatype Tombstone = Tombstone(id: Id, credit: Credits)

  /** A peer's channel request that occupies a slot until it is answered. */
  datatype Incoming = Incoming(remote: Id, credit: Credits)

  datatype State = State(
    limits: Limits,
    nextId: Id,
    pending: map<Id, bool>,
    cancelled: seq<Id>,
    channels: map<Id, Channel>,
    tombstones: seq<Tombstone>,
    held: multiset<Incoming>,
    queue: Queue,
    helloReceived: bool,
    closing: bool)

  function Fresh(l: Limits): State {
    State(l, 1, map[], [], map[], [], multiset{}, Initial().queue, false, false)
  }

  function NewChannel(remote: Id, c: Credits, l: Limits): Channel {
    Channel(remote, NewSender(c), NewReceiver(l))
  }

  // ---------- Sending ----------

  /** `send_frame`: a control frame that does not fit marks the connection overloaded. */
  function Send(e: State, f: Frame): State
    requires e.limits.Valid()
  {
    if e.closing then e
    else match TryQueue(e.queue, f, false, e.limits)
      case Queued(q) => e.(queue := q)
      case _ => e.(closing := true)
  }

  /** `send_priority_frame`. */
  function SendPriority(e: State, f: Frame): State
    requires e.limits.Valid()
  {
    if e.closing then e
    else match TryQueuePriority(e.queue, f, e.limits)
      case Queued(q) => e.(queue := q)
      case _ => e.(closing := true)
  }

  // ---------- Opening and accepting channels ----------

  function OccupiedSlots(e: State): nat { |e.channels| + |e.pending| + |e.held| }

  /** `handle_cmd` on OpenChannel whose caller is still waiting. */
  function OpenChannel(e: State, endpoint: Bytes): State
    requires e.limits.Valid()
  {
    if |e.pending| >= e.limits.maxPendingRequests || OccupiedSlots(e) >= e.limits.maxChannels then e
    else
      var id := e.nextId;
      var e' := Send(e.(nextId := id + 1), Request(id, INITIAL_FRAME_CREDIT, INITIAL_BYTE_CREDIT, endpoint));
      if e'.closing then e' else e'.(pending := e'.pending[id := false])
  }

  /** The caller dropped its open future. */
  function CancelOpen(e: State, id: Id): State {
    if id in e.pending then e.(pending := e.pending[id := true]) else e
  }

  /** One round of `cleanup_cancelled_opens`. */
  function CleanupCancelled(e: State, id: Id): State {
    if id !in e.pending || !e.pending[id] then e
    else
      var e' := e.(pending := e.pending - {id});
      if |e.cancelled| >= e.limits.maxTombstones then e'.(closing := true)
      else e'.(cancelled := e.cancelled + [id])
  }

  /** `handle_cmd` on AcceptChannel: the slot is released, then reused by the channel. */
  function AcceptChannel(e: State, r: Incoming): State
    requires e.limits.Valid()
  {
    if r !in e.held then e
    else
      var e1 := e.(held := e.held - multiset{r});
      if |e.channels| >= e.limits.maxChannels then Send(e1, Reject(r.remote, LimitReason()))
      else
        var id := e.nextId;
        var e2 := Send(e1.(nextId := id + 1), Accept(r.remote, id, INITIAL_FRAME_CREDIT, INITIAL_BYTE_CREDIT));
        if e2.closing then e2 else e2.(channels := e2.channels[id := NewChannel(r.remote, r.credit, e.limits)])
  }

  /** `mut_reject`, called explicitly or when an unhandled request is dropped. */
  function RejectIncoming(e: State, r: Incoming, reason: Bytes): State
    requires e.limits.Valid()
  {
    if r !in e.held then e else Send(e.(held := e.held - multiset{r}), Reject(r.remote, reason))
  }

  function Ascii(s: string): Bytes { seq(|s|, i requires 0 <= i < |s| => s[i] as int % 256) }

  function LimitReason(): Bytes { Ascii("connection channel limit reached") }

  function CancelReason(): Bytes { Ascii("channel open cancelled") }

  // ---------- Channel halves ----------

  /** Outcome of polling the sender: `Blocked` waits for queue space or frame credit;
      `CreditAssertion` is the byte-credit assertion of `poll_send_chunk`. */
  datatype FlushResult = Flushed | Blocked | Broken | CreditAssertion

  /** `poll_send_chunk`. */
  function Flush(e: State, id: Id): (State, FlushResult)
    requires e.limits.Valid()
  {
    if !SenderLive(e, id) then (e, Broken) else
    var c := e.channels[id];
    var s := c.sender;
    if s.closed || e.closing then (WithSender(e, id, s.(closed := true)), Broken)
    else if s.pending.None? then (e, Flushed)
    else if |s.pending.value| > s.credit.bytes then (e, CreditAssertion)
    else if s.credit.frames == 0 then (e, Blocked)
    else match TryQueue(e.queue, Data(c.remote, s.pending.value), true, e.limits)
      case Queued(q) => (WithSender(e.(queue := q), id, ChunkSent(s)), Flushed)
      case Full => (e, Blocked)
      case TooLarge => (WithSender(e.(closing := true), id, s.(closed := true, pending := None)), Broken)
  }

  function WithSender(e: State, id: Id, s: Sender): State
    requires id in e.channels
  {
    e.(channels := e.channels[id := e.channels[id].(sender := s)])
  }

  function WithReceiver(e: State, id: Id, r: Receiver): State
    requires id in e.channels
  {
    e.(channels := e.channels[id := e.channels[id].(receiver := r)])
  }

  /** The half still exists and its owner may call it. */
  predicate SenderLive(e: State, id: Id) { id in e.channels && !e.channels[id].sender.dropped }

  predicate ReceiverLive(e: State, id: Id) { id in e.channels && !e.channels[id].receiver.dropped }

  /** A flush succeeds with nothing to send: the half is open and its last chunk is out. */
  predicate Writable(e: State, id: Id) {
    SenderLive(e, id) && !e.channels[id].sender.closed && !e.channels[id].sender.closedSent && e.channels[id].sender.pending.None?
  }

  /** The rest of `poll_write` after its flush succeeded. */
  function Write(e: State, id: Id, buf: Bytes): State
    requires e.limits.Valid()
  {
    if !Writable(e, id) then e
    else WithSender(e, id, WriteChunk(e.channels[id].sender, buf, e.limits.MaxPayload()).0)
  }

  /** What `poll_write` reports to have taken then. */
  function WriteCount(e: State, id: Id, buf: Bytes): nat
    requires e.limits.Valid()
  {
    if !Writable(e, id) then 0
    else WriteChunk(e.channels[id].sender, buf, e.limits.MaxPayload()).1
  }

  /** The rest of `poll_close` after its flush succeeded. */
  function FinishClose(e: State, id: Id): State
    requires e.limits.Valid()
  {
    if !Writable(e, id) then e
    else
      var c := e.channels[id];
      WithSender(Send(e, Closed(c.remote, [])), id, c.sender.(closedSent := true, closed := true))
  }

  /** `Drop for Sender`; a pending chunk is never sent. */
  function DropSender(e: State, id: Id): State
    requires e.limits.Valid()
  {
    if !SenderLive(e, id) then e
    else
      var c := e.channels[id];
      var e' := if c.sender.closedSent || e.closing then e else Send(e, Closed(c.remote, []));
      WithSender(e', id, c.sender.(closed := true, dropped := true))
  }

  /** `Drop for Receiver`. */
  function DropReceiver(e: State, id: Id): State
    requires e.limits.Valid()
  {
    if !ReceiverLive(e, id) then e
    else
      var c := e.channels[id];
      var e' := if e.closing then e else Send(e, Close(c.remote, []));
      WithReceiver(e', id, c.receiver.(closed := true, dropped := true, buffer := []))
  }

  /** `poll_next_chunk` with data buffered: the Adjust counts only if it could be queued. */
  function NextChunk(e: State, id: Id, fastFrames: bool, fastBytes: bool): State
    requires e.limits.Valid()
  {
    if !ReceiverLive(e, id) || e.channels[id].receiver.buffer == [] || e.channels[id].receiver.partial.Some? then e
    else
      var c := e.channels[id];
      var (r, add) := Consume(c.receiver, fastFrames, fastBytes);
      if add.None? then WithReceiver(e, id, r)
      else
        var e' := Send(e, Adjust(c.remote, add.value.frames, add.value.bytes));
        WithReceiver(e', id, if e'.closing then r else Returned(r, add.value))
  }

  /** What `poll_read` returns: bytes, or nothing yet. No bytes for a non-empty buffer is end of stream. */
  datatype ReadResult = Ready(bytes: Bytes) | NotReady

  /** The copying part of `poll_read`, and its end-of-stream test. */
  function Read(e: State, id: Id, room: nat): (State, ReadResult)
  {
    if !ReceiverLive(e, id) then (e, NotReady)
    else
      var r := e.channels[id].receiver;
      if r.partial.Some? then
        var (r', bytes) := Take(r, room);
        (WithReceiver(e, id, r'), Ready(bytes))
      else if r.buffer == [] && r.closed then (e, Ready([]))
      else (e, NotReady)
  }

  // ---------- Closed channels ----------

  /** One round of `cleanup_channels` before eviction. */
  function CleanupChannel(e: State, id: Id): State {
    if id !in e.channels || !e.channels[id].sender.dropped || !e.channels[id].receiver.dropped then e
    else e.(channels := e.channels - {id}, tombstones := e.tombstones + [Tombstone(id, e.channels[id].receiver.credit)])
  }

  /** One round of the eviction loop: the oldest tombstone goes first. */
  function EvictTombstone(e: State): State {
    if |e.tombstones| > e.limits.maxTombstones then e.(tombstones := e.tombstones[1..]) else e
  }

  function FindTombstone(ts: seq<Tombstone>, id: Id): Option<Credits> {
    if ts == [] then None else if ts[0].id == id then Some(ts[0].credit) else FindTombstone(ts[1..], id)
  }

  /** Spend the credit of the first tombstone with this id. */
  function SpendTombstone(ts: seq<Tombstone>, id: Id, bytes: nat): seq<Tombstone>
    requires FindTombstone(ts, id).Some? && 0 < FindTombstone(ts, id).value.frames
             && bytes <= FindTombstone(ts, id).value.bytes
  {
    if ts[0].id == id then [Tombstone(id, Credits(ts[0].credit.frames - 1, ts[0].credit.bytes - bytes))] + ts[1..]
    else [ts[0]] + SpendTombstone(ts[1..], id, bytes)
  }

  /** Remove the first occurrence. */
  function Without(ids: seq<Id>, id: Id): seq<Id> {
    if ids == [] then [] else if ids[0] == id then ids[1..] else [ids[0]] + Without(ids[1..], id)
  }

  // ---------- Incoming frames ----------

  datatype Violation =
    | HelloExpected | InvalidMagic | DuplicateHello | PayloadTooLarge | RequestNotFound
    | NoFrameCredit | NotEnoughByteCredit | LateDataExceedsCredit
    | EmptyAdjust | FrameCreditOverflow | ByteCreditOverflow | QueueLimit

  /** `Unknown` is counted against a rate limit; `SlotAssertion` is the assertion in `make_channel`. */
  datatype Outcome = Handled | Requested | Unknown | PeerClosed | Violates(v: Violation) | SlotAssertion

  function Sent(e: State): (State, Outcome) { (e, if e.closing then Violates(QueueLimit) else Handled) }

  function ControlPayload(f: Frame): nat {
    match f
    case Hello(_, info) => |info|
    case ConnectionClose(reason) => |reason|
    case Request(_, _, _, endpoint) => |endpoint|
    case Reject(_, reason) => |reason|
    case Close(_, reason) => |reason|
    case Closed(_, reason) => |reason|
    case _ => 0
  }

  /** `handle_frame`, without the rate counters and the ping state. */
  function Handle(e: State, f: Frame): (State, Outcome)
    requires e.limits.Valid()
  {
    if !e.helloReceived && !f.Hello? then (e, Violates(HelloExpected))
    else if ControlPayload(f) > e.limits.maxControlPayload then
      if f.Request? then Sent(Send(e, Reject(f.sender, Ascii("channel endpoint too large"))))
      else (e, Violates(PayloadTooLarge))
    else Dispatch(e, f)
  }

  function Dispatch(e: State, f: Frame): (State, Outcome)
    requires e.limits.Valid()
  {
    match f
      case Hello(magic, _) =>
        if magic != PROTOCOL_MAGIC then (e, Violates(InvalidMagic))
        else if e.helloReceived then (e, Violates(DuplicateHello))
        else (e.(helloReceived := true), Handled)
      case ConnectionClose(_) => (e.(closing := true), PeerClosed)
      case Request(_, _, _, _) => HandleRequest(e, f)
      case Accept(_, _, _, _) => HandleAccept(e, f)
      case Reject(_, _) => HandleReject(e, f.receiver)
      case Data(_, _) => HandleData(e, f.receiver, f.payload)
      case Adjust(_, _, _) => HandleAdjust(e, f.receiver, Credits(f.frames, f.bytes))
      case Close(_, _) => HandleClose(e, f.receiver)
      case Closed(_, _) => HandleClosed(e, f.receiver)
      case Ping => Sent(SendPriority(e, Pong))
      case Pong => (e, Handled)
  }

  function HandleRequest(e: State, f: Frame): (State, Outcome)
    requires e.limits.Valid() && f.Request?
  {
    if |e.held| >= e.limits.maxPendingRequests || OccupiedSlots(e) >= e.limits.maxChannels then
      Sent(Send(e, Reject(f.sender, LimitReason())))
    else (e.(held := e.held + multiset{Incoming(f.sender, Credits(f.frames, f.bytes))}), Requested)
  }

  function HandleAccept(e: State, f: Frame): (State, Outcome)
    requires e.limits.Valid() && f.Accept?
  {
    var id := f.receiver;
    if id in e.pending then
      var e' := e.(pending := e.pending - {id});
      if |e.channels| >= e.limits.maxChannels then (e', SlotAssertion)
      else (e'.(channels := e.channels[id := NewChannel(f.sender, Credits(f.frames, f.bytes), e.limits)]), Handled)
    else if id in e.cancelled then
      var e' := e.(cancelled := Without(e.cancelled, id));
      var e'' := Send(Send(e', Close(f.sender, CancelReason())), Closed(f.sender, CancelReason()));
      if e''.closing then (e'', Violates(QueueLimit))
      else (e''.(tombstones := e.tombstones + [Tombstone(id, INITIAL_CREDITS)]), Handled)
    else (e, Violates(RequestNotFound))
  }

  function HandleReject(e: State, id: Id): (State, Outcome) {
    if id in e.pending then (e.(pending := e.pending - {id}), Handled)
    else if id in e.cancelled then (e.(cancelled := Without(e.cancelled, id)), Handled)
    else (e, Violates(RequestNotFound))
  }

  function HandleData(e: State, id: Id, payload: Bytes): (State, Outcome) {
    if id in e.channels then
      var r := e.channels[id].receiver;
      if r.credit.frames == 0 then (e, Violates(NoFrameCredit))
      else if r.credit.bytes < |payload| then (e, Violates(NotEnoughByteCredit))
      else (WithReceiver(e, id, Store(r, payload)), Handled)
    else match FindTombstone(e.tombstones, id)
      case Some(c) =>
        if c.frames == 0 || c.bytes < |payload| then (e, Violates(LateDataExceedsCredit))
        else (e.(tombstones := SpendTombstone(e.tombstones, id, |payload|)), Handled)
      case None => (e, Unknown)
  }

  function HandleAdjust(e: State, id: Id, add: Credits): (State, Outcome) {
    if add.frames == 0 && add.bytes == 0 then (e, Violates(EmptyAdjust))
    else if id in e.channels then
      var s := e.channels[id].sender;
      if s.credit.frames + add.frames > U32_MAX then (e, Violates(FrameCreditOverflow))
      else if s.credit.bytes + add.bytes > U32_MAX then (e, Violates(ByteCreditOverflow))
      else (WithSender(e, id, s.(credit := Credits(s.credit.frames + add.frames, s.credit.bytes + add.bytes))), Handled)
    else (e, RecentlyClosed(e, id))
  }

  function RecentlyClosed(e: State, id: Id): Outcome {
    if FindTombstone(e.tombstones, id).Some? then Handled else Unknown
  }

  function HandleClose(e: State, id: Id): (State, Outcome) {
    if id in e.channels then (WithSender(e, id, e.channels[id].sender.(closed := true)), Handled)
    else (e, RecentlyClosed(e, id))
  }

  function HandleClosed(e: State, id: Id): (State, Outcome) {
    if id in e.channels then (WithReceiver(e, id, e.channels[id].receiver.(closed := true)), Handled)
    else (e, RecentlyClosed(e, id))
  }
}
