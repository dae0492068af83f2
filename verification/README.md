# Nexigon: protocols and transformations, verified

A Dafny 4.11 model of the parts of Nexigon whose correctness is not visible in any single function,
with machine-checked proofs. `dafny verify dfyconfig.toml` checks everything.

## What is modelled

**The channel multiplexer** (`nexigon-multiplex`). `FrameCodec` models the frame macro: field layouts,
constructors, getters, setters and the parser, with the eleven frame types as instances. `OutgoingQueue`
is the bounded queue with its priority lane, `ReceiveWindow` the credit window of a channel and its two
halves, `Endpoint` one side of a connection as a value with one function per operation that the source
runs under a lock. `Connection` has the same operations as methods of a class that updates its fields in
place and loops over its tables; every method is proved to do to its state what the function says.
`EndpointSafety` proves what one side keeps against *any* peer, `EndpointDuties` when it does what it is
asked and exactly what it refuses.

`System` joins two endpoints by two first-in first-out wires. A step is something one side does locally,
its transport taking the oldest queued frame, or its processing the oldest frame from the other side;
callers, readers, writers, drops, cancellations and cleanups happen at any time. The invariant is stated
one channel id at a time (`Link`): the view of an id consists of its own endpoint, the frames under way in
both directions, and its counterpart at the peer. `LinkSteps` and `LinkUpdates` show what each operation
does to a view, the `System...` files that each step touches only the views it should, and `Multiplex`
states the results for all runs in which neither side has closed the connection. `Endings` says exactly
which step of such a run ends the connection, `Courtesy` what is left of that when callers keep their texts
short, `Remembrance` that a channel is unknown only after its tombstone was evicted. `Observed` restates the
reliable stream in terms of what reads handed out and what writes reported, `Stopping` that a writer is told
to stop exactly when its reader is gone. `Handshake` shows that
such runs exist for all limits, up to data arriving at the reader; `Breakdowns` has runs that end although
both sides follow the protocol. `Liveness` is the ping state machine of two endpoints.

**Command execution that survives crashes** (`run.rs`, `operation_ledger.rs`). `OperationLedger` keeps
memory, the directory as the process sees it, and the directory as a power failure would leave it apart;
a rename may succeed although the directory sync fails. `OperationLoop` is the protocol as a state machine
with failures, restarts, power failures and spontaneous write-back between any two steps, observed through
a log; `OperationAgent` is the loop as imperative code whose every iteration is a run of that machine.
File operations of an aborted session may take effect at any later time: `OperationLanding` has the
promises made of each execution and says exactly which landings can break them, `OperationReports` what
follows for every log while none does, `OperationLate` what holds regardless, and runs that go wrong.

**Schema reference expansion** (`handlers.rs`). `Json` has values and RFC 6901 pointers, `SchemaExpansion`
the expansion with its node policy, cycle check and budget, `SchemaExpander` the same with a mutable set of
active references and a work counter. `SchemaReferences` says which value a reference names. `SchemaMeaning` defines which instances a Draft 7 schema accepts
(keywords that apply subschemas are spelled out; assertions about single values and regular expressions
are arbitrary parameters; siblings of `$ref` are ignored as section 8.3 of draft-handrews-json-schema-01
asks) and proves that expansion does not change it. `SchemaWork` has the budget and the
overall result, `SchemaStable` that expanding twice is expanding once, `SchemaVerdict` exactly which schemas
expand and what they cost.

**Identifier encoding** (`nexigon-ids`). `IdEncoding` is the mixed-radix encoding on digits with a decoder
the repository does not have; `IdText` the two copies of the encoder as they write into a string with
32-bit arithmetic, the digit table and `FromStr`.

**Weighted admission** (`nexigon-rpc`). `Admission` is the pool of byte permits: acquisition in two stages
with partial assignment to waiters, the registry of actor semaphores, shrinking, drops and cancellation.

### Promises the code does not keep as stated

- A success is *not* only reported if the handler returned it since the previous acknowledgement: when the
  ledger entry cannot be pruned after an acknowledgement and the work is leased again, the old success is
  sent again (`SuccessRepeatedWithoutPrune`). `SuccessRepeated` says when, in every run: if and only if a
  success is on record when the work is leased that was not returned since. Unless a file operation did harm
  by landing late (below), that means that no execution is unacknowledged, and the success is the report the
  hub acknowledged last (`AcknowledgedSuccessRepeated`).
- Two endpoints that follow the protocol may still lose their connection. `ConnectionEnds` gives the exact
  condition on the state before each step: the side gives up; it forgets a cancelled open because it
  remembers no more of them; a control frame it sends, or an answer it owes, does not fit its queue; or the
  arriving frame is larger than it allows or carries a longer text than it reads. A longer text arrives even
  between equal limits, because the reason of a rejection is not limited where it is given
  (`LongReasonEnds`); with equal frame sizes, neither happens if callers limit it (`PoliteRuns`).
  Cancelling opens the peer has not answered ends the connection without anything received or queued
  (`CancelledOpensEnd`).
- A session that is aborted leaves its file operation to a blocking thread. When that takes effect after the
  next session loaded the ledger, a command can be executed although an execution before it is
  unacknowledged (`LateUnlinkForgets`), a transmitted report can be contradicted (`LateRenameContradicts`),
  and a success can be reported after the hub acknowledged an interruption and the entry was pruned
  (`LateRenameRevives`). `HarmfulExactly` says which landings do that, on the state they happen in: a promise
  can be broken afterwards, without further landings, if and only if the landing is harmful to it.
  - A clean start: harmful are the removal of the entry while an execution is unacknowledged or while the
    record of a dispatch is being synced, and a completed entry that replaces that record.
  - Stable reports: once a report was transmitted, or is about to be, harmful are the removal of the entry
    and an entry that says something else (an unfinished one says that the execution was interrupted).
  - True reports: harmful is a result that is not, or in a moment will not be, that of the latest execution.
  - Settled reports: harmful is a success that was not acknowledged last or whose entry was pruned, or for
    which that will be so once the pending report is acknowledged or the pending removal is done.

  Whatever lands, executions number at most the acknowledgements plus one (`AtMostOnce`).
- A receiver can be read as bytes or as a stream of chunks. A chunk taken while the one before it was partly
  read overtakes what is left of that (`ItemOvertakes`); the bytes stay in order exactly if the two can be
  exchanged, so always if no chunk is partly read (`ItemKeepsOrder`).

## Model

| member | source | states |
|---|---|---|
| FrameCodec.New | crates/libs/nexigon-multiplex/src/frames.rs:267-288 | a constructor writes the tag and then every field in order, and the result has at least the minimum length |
| FrameCodec.Set | crates/libs/nexigon-multiplex/src/frames.rs:218-248 | a setter changes exactly its own field, keeps the tag and, for fixed-size fields, the length |
| FrameCodec.GetAfterNew | crates/libs/nexigon-multiplex/src/frames.rs:191-215 | every getter of a new frame returns the value given to the constructor |
| FrameCodec.ParseEncode | crates/libs/nexigon-multiplex/src/frames.rs:57-79 | for all eleven types, parsing a constructed frame gives that type with all its fields |
| FrameCodec.ParseAcceptsExactly | crates/libs/nexigon-multiplex/src/frames.rs:57-79 | the parser succeeds exactly on a known tag with at least that type's minimum length |
| FrameCodec.GettersInBounds | crates/libs/nexigon-multiplex/src/frames.rs:159-215 | in every byte string the parser accepts, every field lies inside the string |
| FrameCodec.EncodedLength | crates/libs/nexigon-multiplex/src/frames.rs:297-372 | the encoded length of each frame type |
| FrameCodec.WireExample | crates/libs/nexigon-multiplex/src/frames.rs:297-372 | tag, field order and byte order of an encoded frame, byte by byte |
| OutgoingQueue.QueueingKeepsBudget | crates/libs/nexigon-multiplex/src/lib.rs:609-659 | queueing keeps the byte count exact and both limits, and data never uses the reserved capacity |
| OutgoingQueue.AdmittedExactly | crates/libs/nexigon-multiplex/src/lib.rs:609-659 | a frame is refused only for its size or for lack of room, of which data may use less, and is queued at the back |
| OutgoingQueue.PriorityFirst | crates/libs/nexigon-multiplex/src/lib.rs:663-699 | a priority frame leaves before everything queued but an unsent Hello, and the rest leaves as it would have |
| OutgoingQueue.PriorityInvisible | crates/libs/nexigon-multiplex/src/lib.rs:663-699 | a priority frame leaves the order of all others alone |
| OutgoingQueue.ReserveAdmitsControl | crates/libs/nexigon-multiplex/src/lib.rs:609-699 | in every run data never takes the reserved capacity, so a control frame is admitted in either lane while the control frames queued before it leave room for it in the reserve; only control traffic keeps control traffic out |
| OutgoingQueue.QueueRuns | crates/libs/nexigon-multiplex/src/lib.rs:609-765 | over every run the first frame popped is the only Hello, ordinary frames leave in the order queued, the byte count is the sum of the queued lengths and both hard limits hold |
| ReceiveWindow.ConsumeKeepsWindow | crates/libs/nexigon-multiplex/src/lib.rs:2658-2757 | credit, buffer and unreturned consumption stay within the window and the window within its limit, whether or not the Adjust could be queued; every Adjust carries frame credit |
| ReceiveWindow.ConsumeKeepsTight | crates/libs/nexigon-multiplex/src/lib.rs:2658-2757 | after returning credit lazily, a drained receiver has left at least half its window with the sender |
| ReceiveWindow.TakeHandsOut | crates/libs/nexigon-multiplex/src/lib.rs:2806-2818 | a read hands out the first bytes of what is left of the chunk, as many as there are and fit, and keeps the rest |
| ReceiveWindow.WriteReports | crates/libs/nexigon-multiplex/src/lib.rs:2452-2481 | a write takes exactly the bytes it reports, as many as credit and frame size allow |
| ReceiveWindow.FastWindowGrows | crates/libs/nexigon-multiplex/src/lib.rs:2684-2715 | a low and fast window doubles up to its limit, and no other grows |
| ReceiveWindow.CreditReturnedLazily | crates/libs/nexigon-multiplex/src/lib.rs:2715-2757 | no credit is returned while half of both windows is with the sender |
| ReceiveWindow.ItemKeepsOrder | crates/libs/nexigon-multiplex/src/lib.rs:2872-2878 | taking a whole chunk keeps the bytes in order exactly if it commutes with what is left of the last one |
| ReceiveWindow.ItemOvertakes | crates/libs/nexigon-multiplex/src/lib.rs:2872-2878 | two chunks of which the second overtakes the first |
| EndpointSafety.EventKeeps | crates/libs/nexigon-multiplex/src/lib.rs:1090-1530 | every operation of an endpoint, including any frame from any peer, keeps slots, windows and queue within their limits |
| EndpointSafety.EndpointRuns | crates/libs/nexigon-multiplex/src/lib.rs:1026-1059 | in every run against any peer: channels, pending opens and held requests never exceed the slots; windows respect their limits; the queue budget is exact |
| EndpointSafety.AssertionsHold | crates/libs/nexigon-multiplex/src/lib.rs:1026-1130 | the assertion in `make_channel`, the limit branch of an accepted request and the credit assertion of a pending chunk are never reached |
| EndpointDuties.FlushExactly | crates/libs/nexigon-multiplex/src/lib.rs:2376-2442 | a pending chunk is sent exactly if there is frame credit and room among the data, and is kept otherwise; a flush fails exactly for a closed half |
| EndpointDuties.PullExactly | crates/libs/nexigon-multiplex/src/lib.rs:2658-2683 | the oldest chunk leaves the buffer and is what the reader takes from next |
| EndpointDuties.AdjustCounts | crates/libs/nexigon-multiplex/src/lib.rs:2715-2757 | credit counts as returned exactly if an Adjust was queued, and then what it carries |
| EndpointDuties.GrantedCredit | crates/libs/nexigon-multiplex/src/lib.rs:1026-1059 | a channel starts with the credit the other side granted |
| EndpointDuties.RefusedExactly | crates/libs/nexigon-multiplex/src/lib.rs:1165-1530 | from any peer, each violation is raised exactly for its reason, and changes nothing |
| EndpointDuties.UnknownExactly | crates/libs/nexigon-multiplex/src/lib.rs:1342-1510 | a frame counts as unknown exactly if neither its channel nor the channel's tombstone is there |
| EndpointDuties.HeldExactly | crates/libs/nexigon-multiplex/src/lib.rs:1236-1274 | a request is held, with the credit it offers, exactly while both limits leave room |
| EndpointDuties.OpensExactly | crates/libs/nexigon-multiplex/src/lib.rs:1092-1118 | an open takes a new id exactly while both limits leave room |
| Connection.ConnectionQueues.TryQueueFrame | crates/libs/nexigon-multiplex/src/lib.rs:609-659 | queues at the back exactly when the frame fits the capacity its kind may use |
| Connection.ConnectionQueues.TryQueuePriorityFrame | crates/libs/nexigon-multiplex/src/lib.rs:663-699 | queues at the front, but behind an unsent Hello |
| Connection.ConnectionQueues.PopFrame | crates/libs/nexigon-multiplex/src/lib.rs:702-713 | takes the oldest frame and keeps the byte count exact |
| Connection.ConnectionQueues.Clear | crates/libs/nexigon-multiplex/src/lib.rs:752-765 | drops every frame and the whole byte count |
| Connection.Connection.constructor | crates/libs/nexigon-multiplex/src/lib.rs:960-1012 | a new connection is empty but for the queued Hello, and satisfies the invariant |
| Connection.Connection.SendFrame | crates/libs/nexigon-multiplex/src/lib.rs:338-353 | queues a control frame, or marks the connection overloaded |
| Connection.Connection.SendPriorityFrame | crates/libs/nexigon-multiplex/src/lib.rs:355-370 | queues a liveness frame, or marks the connection overloaded |
| Connection.Connection.HandleOpen | crates/libs/nexigon-multiplex/src/lib.rs:1092-1118 | opens a channel under a fresh id if a request and a slot are free |
| Connection.Connection.HandleAcceptCommand | crates/libs/nexigon-multiplex/src/lib.rs:1119-1160 | turns a held request's slot into a channel under a fresh id |
| Connection.Connection.RejectRequest | crates/libs/nexigon-multiplex/src/lib.rs:1970-1976 | releases the slot and sends the rejection |
| Connection.Connection.PollSendChunk | crates/libs/nexigon-multiplex/src/lib.rs:2376-2442 | sends the pending chunk only against credit and queue space, and keeps it otherwise; the assertion on its credit is never reached |
| Connection.Connection.PollWrite | crates/libs/nexigon-multiplex/src/lib.rs:2445-2481 | fails exactly for a closed half or connection; otherwise waits, taking nothing, or takes exactly what it reports, and something if anything was given |
| Connection.Connection.PollClose | crates/libs/nexigon-multiplex/src/lib.rs:2501-2518 | announces the end once the pending chunk is out, and not before |
| Connection.Connection.AcceptChunk | crates/libs/nexigon-multiplex/src/lib.rs:2452-2481 | takes at most one chunk, within byte credit and frame size, and reports exactly what it took; nothing only if nothing was given or allowed |
| Connection.Connection.CloseSender | crates/libs/nexigon-multiplex/src/lib.rs:2501-2518 | announces the end of the stream and closes the half |
| Connection.Connection.DropSenderHalf | crates/libs/nexigon-multiplex/src/lib.rs:2521-2538 | dropping announces the end unless already announced; a pending chunk is lost |
| Connection.Connection.DropReceiverHalf | crates/libs/nexigon-multiplex/src/lib.rs:2774-2795 | dropping discards the buffer and asks the peer to stop |
| Connection.ConsumeFrame | crates/libs/nexigon-multiplex/src/lib.rs:2662-2730 | window growth, and when an Adjust is due and for how much |
| Connection.Connection.PollNextChunk | crates/libs/nexigon-multiplex/src/lib.rs:2658-2771 | hands out the oldest chunk; credit counts as returned only if the Adjust was queued |
| Connection.Connection.PollRead | crates/libs/nexigon-multiplex/src/lib.rs:2799-2834 | hands out the first bytes of the partly read chunk or the next one, keeps the rest, and reports the end only when closed and drained |
| Connection.Connection.DiscardLateData | crates/libs/nexigon-multiplex/src/lib.rs:911-945 | late data spends the credit of the first tombstone with its id, and of no other |
| Connection.Connection.TakeCancelledOpen | crates/libs/nexigon-multiplex/src/lib.rs:859-869 | consumes the first tombstone of the cancelled open |
| Connection.Connection.ReceiveRequest | crates/libs/nexigon-multiplex/src/lib.rs:1236-1274 | holds a request only if a slot is free and rejects it otherwise |
| Connection.Connection.ReceiveAccept | crates/libs/nexigon-multiplex/src/lib.rs:1275-1320 | opens the awaited channel, or closes and buries one nobody waits for and drops the oldest tombstones down to the limit |
| Connection.Connection.ReceiveAnswer | crates/libs/nexigon-multiplex/src/lib.rs:1321-1341 | a rejection ends the open wherever it is awaited |
| Connection.Connection.ReceiveData | crates/libs/nexigon-multiplex/src/lib.rs:1342-1405 | data spends credit, is buffered if the half is open, and is checked against tombstones otherwise |
| Connection.Connection.ReceiveAdjust | crates/libs/nexigon-multiplex/src/lib.rs:1406-1470 | credit is added without exceeding 32 bits |
| Connection.Connection.ReceiveClose | crates/libs/nexigon-multiplex/src/lib.rs:1471-1510 | closes the addressed half, or tolerates the frame for a recently closed channel |
| Connection.Connection.HandleFrame | crates/libs/nexigon-multiplex/src/lib.rs:1165-1530 | processing a frame: state and outcome as specified for every type, including every violation; like every operation it keeps the endpoint's invariant and the tombstone limit, and never fails the slot assertion |
| Connection.Connection.CleanupCancelledOpens | crates/libs/nexigon-multiplex/src/lib.rs:834-856 | moves every cancelled open to those awaiting an answer, or fails when there are too many |
| Connection.Connection.EvictOldest | crates/libs/nexigon-multiplex/src/lib.rs:895-899 | drops oldest tombstones until the limit holds; the youngest stay |
| Connection.Connection.CleanupChannels | crates/libs/nexigon-multiplex/src/lib.rs:872-901 | every channel without halves becomes a tombstone, the others stay |
| Link.TotalPush | crates/libs/nexigon-multiplex/src/lib.rs:609-659 | what a pipe carries, after one more frame |
| LinkSteps.DataArrives | crates/libs/nexigon-multiplex/src/lib.rs:1342-1394 | data a conforming sender has under way is always covered by credit, and keeps the direction's invariant |
| LinkSteps.LateDataArrives | crates/libs/nexigon-multiplex/src/lib.rs:911-945 | so is data for a channel that is already buried |
| LinkSteps.AdjustArrives | crates/libs/nexigon-multiplex/src/lib.rs:1409-1440 | returned credit never overflows the sender's and keeps the direction's invariant |
| LinkSteps.ConsumeStep | crates/libs/nexigon-multiplex/src/lib.rs:2658-2757 | credit under way back grows by exactly what the receiver counts |
| LinkSteps.FarCleanup | crates/libs/nexigon-multiplex/src/lib.rs:872-901 | a tombstone takes over the credit of the channel it replaces |
| LinkSteps.LateFar | crates/libs/nexigon-multiplex/src/lib.rs:1283-1308 | the tombstone of a cancelled open covers what its late accept allows |
| SystemRuns.ActKeeps | crates/libs/nexigon-multiplex/src/lib.rs:1583-1780 | every step of two joined endpoints keeps the invariant of every channel |
| SystemRuns.HandleDelivered | crates/libs/nexigon-multiplex/src/lib.rs:1165-1530 | the next frame from a conforming peer is processed and leaves the pair in order |
| Multiplex.CreditConservation | crates/libs/nexigon-multiplex/src/lib.rs:1342-1470 | in every run, receiving credit == sending credit + data under way + credit under way back, through receiver drop, cleanup into a tombstone and the late accept of a cancelled open |
| Multiplex.ReliableStream | crates/libs/nexigon-multiplex/src/lib.rs:2445-2519 | taken ++ partly read ++ buffered ++ under way ++ pending are exactly the accepted bytes, and no data frame is empty |
| Multiplex.EndOfStream | crates/libs/nexigon-multiplex/src/lib.rs:2797-2834 | end of stream is seen only after the sender finished and everything sent was taken; after a successful close nothing is missing |
| Multiplex.EndVisible | crates/libs/nexigon-multiplex/src/lib.rs:2497-2538 | with nothing buffered or under way, a reader sees the end of the stream if and only if the sender has finished (closed and flushed, or dropped) or the open was cancelled |
| Observed.StreamObserved | crates/libs/nexigon-multiplex/src/lib.rs:2445-2481 | until the reader is dropped, what writes reported is what reads handed out ++ partly read ++ buffered ++ under way ++ pending, in every run |
| Observed.ReadsArePrefix | crates/libs/nexigon-multiplex/src/lib.rs:2797-2834 | in every run, whatever was dropped or cleaned up, what reads handed out is a prefix of what writes to the counterpart reported |
| Stopping.WriterStopped | crates/libs/nexigon-multiplex/src/lib.rs:2774-2795 | with no request to stop under way, a writer that did not end its stream is closed if and only if its reader is gone; then a flush fails and sends nothing |
| Stopping.StopHalts | crates/libs/nexigon-multiplex/src/lib.rs:1471-1485 | a Close closes the addressed writer and nothing else, so its next flush fails |
| Multiplex.NoCreditStall | crates/libs/nexigon-multiplex/src/lib.rs:2658-2757 | with nothing under way and a drained open receiver the sender holds at least half of both windows |
| Multiplex.OpensMatched | crates/libs/nexigon-multiplex/src/lib.rs:1275-1341 | an id with a request, held request or answer in existence is in exactly one of the pending and the cancelled opens, no other is, and unassigned ids have no trace |
| Multiplex.ConformingPeer | crates/libs/nexigon-multiplex/src/lib.rs:1165-1530 | no flow-control, answer or greeting violation ever arises, and a text is refused exactly if it is too long; a frame for an unknown channel means its tombstone is gone; the Hello arrives first and once |
| Endings.ConnectionEnds | crates/libs/nexigon-multiplex/src/lib.rs:1583-1780 | in every run, each step ends the connection if and only if a condition on the state before it holds, for local operations, transmissions and deliveries |
| Endings.LocalEndsExactly | crates/libs/nexigon-multiplex/src/lib.rs:338-370 | a local operation ends the connection exactly if it gives up, forgets a cancelled open, or announces something there is no room for |
| Endings.DeliveryEndsExactly | crates/libs/nexigon-multiplex/src/lib.rs:1165-1530 | a frame from a conforming peer ends the connection exactly if it is a close, too large, too long a text, or asks for an answer there is no room for |
| Endings.SendsAnnounced | crates/libs/nexigon-multiplex/src/lib.rs:338-370 | a local operation queues exactly the frame it announces, content included |
| Endings.SendsAnswers | crates/libs/nexigon-multiplex/src/lib.rs:1165-1530 | a frame is answered with exactly these frames, content included |
| Courtesy.PoliteRuns | crates/libs/nexigon-multiplex/src/lib.rs:1970-1983 | with equal frame sizes, limits of at least 32 bytes for texts, and reasons the other side reads, an arriving frame ends the connection exactly if its answer does not fit |
| Breakdowns.LongReasonEnds | crates/libs/nexigon-multiplex/src/lib.rs:1970-1983 | for all limits, a request rejected with a longer reason than the opener reads, if it fits a frame, ends the connection |
| Breakdowns.CancelledOpensEnd | crates/libs/nexigon-multiplex/src/lib.rs:834-856 | for all limits, one more unanswered cancelled open than there may be tombstones ends the connection, with nothing received and an empty queue |
| Remembrance.NothingUnknown | crates/libs/nexigon-multiplex/src/lib.rs:903-945 | in every run without an eviction no frame from a conforming peer is for an unknown channel |
| Handshake.FreshEndpointsTalk | crates/libs/nexigon-multiplex/src/lib.rs:960-1012 | for all limits two fresh endpoints can greet, open a channel and deliver the written bytes |
| Liveness.PingRuns | crates/libs/nexigon-multiplex/src/lib.rs:1532-1580 | in every run an endpoint's Pings and their Pongs under way number one while a Ping is outstanding and none otherwise; a Pong is never unsolicited; exactly one deadline runs while a Ping is outstanding |
| Liveness.FlushBranch | crates/libs/nexigon-multiplex/src/lib.rs:1698-1712 | in every run the branch of the flush that finds a Pong already received is dead: the flush hands the watch over to the Pong deadline |
| Liveness.PingDue | crates/libs/nexigon-multiplex/src/lib.rs:1532-1549 | a Ping is queued exactly when the peer has greeted, none is outstanding and there is room |
| Liveness.LivenessState.Ping | crates/libs/nexigon-multiplex/src/lib.rs:1532-1549 | a Ping is queued only after the Hello and with none outstanding, and arms the write deadline |
| Liveness.LivenessState.FrameWritten | crates/libs/nexigon-multiplex/src/lib.rs:1636-1668 | handing the liveness Ping to the transport starts the wait for its flush |
| Liveness.LivenessState.TransportFlushed | crates/libs/nexigon-multiplex/src/lib.rs:1696-1714 | the flush replaces the write deadline by the Pong deadline |
| Liveness.LivenessState.HandlePong | crates/libs/nexigon-multiplex/src/lib.rs:1563-1580 | a Pong is accepted only if a Ping was sent, and disarms both deadlines |
| OperationLedger.MemoryFollowsSuccess | crates/apps/nexigon-agent/src/operation_ledger.rs:109-140 | over every sequence of ledger changes and failures, memory says what the last successful change of a key said; the directory differs only while a later change of that key is unconfirmed; a success leaves nothing unsynced |
| OperationLedger.Ledger.Load | crates/apps/nexigon-agent/src/operation_ledger.rs:182-224 | loads exactly the directory's entries, or fails on a misnamed file |
| OperationLedger.Ledger.Look | crates/apps/nexigon-agent/src/operation_ledger.rs:57-69 | what is recorded of an execution |
| OperationLedger.Ledger.PersistEntry | crates/apps/nexigon-agent/src/operation_ledger.rs:142-180 | rename, then directory sync; a failed sync leaves the rename visible but not durable |
| OperationLedger.Ledger.ReplaceEntry | crates/apps/nexigon-agent/src/operation_ledger.rs:129-140 | memory follows the directory only on success |
| OperationLedger.Ledger.RemoveEntry | crates/apps/nexigon-agent/src/operation_ledger.rs:109-127 | removal from disk, sync, then memory |
| OperationLanding.StepKept | crates/apps/nexigon-agent/src/run.rs:415-581 | every step, failure, restart, power failure and harmless landing keeps the invariant behind each promise |
| OperationLanding.HarmfulExactly | crates/apps/nexigon-agent/src/run.rs:866-899 | in every run whose landings were harmless so far, the landing of a left-over file operation can break a promise if and only if it is harmful in the state it lands in |
| OperationLanding.PromiseKept | crates/apps/nexigon-agent/src/run.rs:415-581 | no run whose landings are harmless ever breaks a promise |
| OperationReports.StartsClean | crates/apps/nexigon-agent/src/run.rs:447-480 | unless a landing harmed a clean start, an execution starts only from a durable record of its dispatch, without an entry in memory, and without an unacknowledged execution before it |
| OperationReports.OnlyCommandsExecuted | crates/apps/nexigon-agent/src/run.rs:473-514 | work that is not a command is never executed, nor is anything while commands are not enabled |
| OperationLoop.ClaimCommitted | crates/apps/nexigon-agent/src/run.rs:424-447 | a report is transmitted only when memory holds it under the current claim, and so do directory and disk unless a file operation landed since |
| OperationLate.AtMostOnce | crates/apps/nexigon-agent/src/run.rs:415-581 | in every run, whatever lands late, executions of a key number at most its acknowledgements plus one; unless a landing harmed it, each starts cleanly |
| OperationLate.StepPaid | crates/apps/nexigon-agent/src/run.rs:415-581 | every step keeps the account of executions, removals still to come, and acknowledgements of each key |
| OperationLate.LateUnlinkForgets | crates/apps/nexigon-agent/src/operation_ledger.rs:109-127 | a run in which an aborted session's removal lands late and a second unacknowledged execution follows |
| OperationLate.LateRenameContradicts | crates/apps/nexigon-agent/src/operation_ledger.rs:142-180 | a run in which an aborted session's record lands late and a transmitted success is followed by a failure report |
| OperationLate.LateRenameRevives | crates/apps/nexigon-agent/src/operation_ledger.rs:142-180 | a run in which an aborted session's result lands late and a success is reported after the interruption was acknowledged and pruned |
| OperationLoop.LedgerAlwaysLoads | crates/apps/nexigon-agent/src/operation_ledger.rs:200-215 | whatever survives a crash, or lands late, is well named, so loading never fails on a name |
| OperationReports.StableReports | crates/apps/nexigon-agent/src/run.rs:419-573 | unless a landing harmed it, all reports transmitted for a key between two acknowledgements are identical |
| OperationReports.ReportedSuccess | crates/apps/nexigon-agent/src/run.rs:419-573 | unless a landing did harm, a reported success is what the latest execution returned, since the last acknowledgement if and only if the command was dispatched again since, in particular if the entry was pruned; anything else is reported as failed with a fixed text |
| OperationLoop.SuccessRepeated | crates/apps/nexigon-agent/src/run.rs:419-447 | in every run, the report for leased work is a success not returned since the last acknowledgement if and only if such a success is on record when the work is leased; and it is then the recorded one |
| OperationReports.AcknowledgedSuccessRepeated | crates/apps/nexigon-agent/src/run.rs:419-447 | unless a landing did harm, that is the question whether a success is on record and no execution is unacknowledged; and it is then the acknowledged report |
| OperationLoop.SuccessRepeatedWithoutPrune | crates/apps/nexigon-agent/src/run.rs:573-580 | a run in which an acknowledged success is reported once more because its entry could not be pruned |
| OperationAgent.Agent.ReportWithRetry | crates/apps/nexigon-agent/src/run.rs:972-1022 | at most five identical attempts within 15 seconds of waiting, ended by any answer; acknowledged exactly if the first answer to arrive is an acknowledgement; the waits are 1, 2, 4 and 8 seconds |
| OperationAgent.Agent.Execute | crates/apps/nexigon-agent/src/run.rs:419-560 | brings leased work to a stored report by steps of the protocol, executing only without a record |
| OperationAgent.Agent.Process | crates/apps/nexigon-agent/src/run.rs:415-581 | one iteration of the loop is an uninterrupted run of the protocol and keeps the invariant of every promise, and what it says of the log; work counts as found exactly if a report was transmitted |
| Json.PointerFinds | crates/apps/nexigon-agent/src/handlers.rs:782-784 | the pointer spelled from a path by RFC 6901 finds the value at that path, whatever characters its names contain |
| SchemaReferences.PathFound | crates/apps/nexigon-agent/src/handlers.rs:782-784 | the pointer spelled from names and array positions finds the value at that path |
| SchemaReferences.PointerOfReference | crates/apps/nexigon-agent/src/handlers.rs:740-753 | exactly which references are accepted, and which pointer each names |
| SchemaReferences.ExpandsAsTarget | crates/apps/nexigon-agent/src/handlers.rs:768-788 | an object whose reference spells a path expands as the value at the path does, for one unit of work |
| SchemaReferences.ReferenceRefused | crates/apps/nexigon-agent/src/handlers.rs:740-784 | a reference that is not local, or active, or leads nowhere is refused |
| SchemaVerdict.PolicyExactly | crates/apps/nexigon-agent/src/handlers.rs:685-731 | exactly which nodes the policy allows, and that an allowed node costs one plus the length of its patterns |
| SchemaVerdict.VerdictOfValue | crates/apps/nexigon-agent/src/handlers.rs:768-878 | at every step of the recursion expansion succeeds if and only if the value is legal and its cost fits the rest of the budget, and then spends exactly that cost |
| SchemaVerdict.ExpandsExactly | crates/apps/nexigon-agent/src/handlers.rs:737-883 | a schema expands if and only if all its nodes are allowed, its references are local, lead somewhere and not back into themselves, its keywords are well formed, and its cost is at most 256; the returned work is that cost |
| SchemaExpander.Expander.AddWork | crates/apps/nexigon-agent/src/handlers.rs:756-766 | adds work and fails beyond the budget |
| SchemaExpander.Expander.ExpandValue | crates/apps/nexigon-agent/src/handlers.rs:768-878 | terminates on every input by references not yet active, then size; on success gives the specified value and restores the active references |
| SchemaExpander.Expander.ExpandObjectKeywords | crates/apps/nexigon-agent/src/handlers.rs:790-871 | every keyword that holds schemas is expanded, in the source's order |
| SchemaExpander.Expander.ExpandKeyword | crates/apps/nexigon-agent/src/handlers.rs:803-871 | single schemas, arrays, objects and dependencies are expanded as their keyword asks |
| SchemaExpander.ExpandReferences | crates/apps/nexigon-agent/src/handlers.rs:880-883 | the whole expansion and its work |
| SchemaMeaning.ExpansionPreserves | crates/apps/nexigon-agent/src/handlers.rs:768-878 | at every step of the recursion the result is free of references and accepts exactly the instances the value accepts with references resolved in the root |
| SchemaMeaning.ObjectExpanded | crates/apps/nexigon-agent/src/handlers.rs:790-871 | expanding an object changes nothing but the schemas in it, and those by expansion |
| SchemaWork.SchemaExpanded | crates/apps/nexigon-agent/src/handlers.rs:737-883 | a successful expansion is free of references at all schema positions, accepts exactly what the schema accepts, and has at most as many schema nodes as the returned work, which is at most 256 |
| SchemaStable.ValueFixed | crates/apps/nexigon-agent/src/handlers.rs:768-878 | what any value expanded to expands to itself, in any document and with any references active, with no more work |
| SchemaStable.ExpandedTwice | crates/apps/nexigon-agent/src/handlers.rs:737-883 | expansion is idempotent: expanding an expanded schema succeeds, changes nothing and costs no more, so every node of the result satisfies the node policy |
| SchemaWork.OthersUntouched | crates/apps/nexigon-agent/src/handlers.rs:790-871 | keywords that hold no schema, member order and array dependencies are left alone |
| SchemaWork.WorkOfValue | crates/apps/nexigon-agent/src/handlers.rs:756-766 | every schema node of a result was paid for, within the budget |
| IdEncoding.BlockFacts | crates/libs/nexigon-ids/src/encoding.rs:13-28 | at every recursion level digit < base < limit (256 for one byte), digits below the alphabet's size, a shape that depends on the length only, and a block that can be decoded |
| IdEncoding.CeilDivLeast | crates/libs/nexigon-ids/src/encoding.rs:7-11 | the base that is left is the least one that loses nothing |
| IdEncoding.EncodeDecode | crates/libs/nexigon-ids/src/encoding.rs:6-35 | a decoder recovers the bytes from the digits; the output length depends on the input length only |
| IdEncoding.Injective | crates/libs/nexigon-ids/src/encoding.rs:6-35 | with distinct characters, inputs of one length are encoded apart |
| IdText.ProductFits | crates/libs/nexigon-ids/src/encoding.rs:21-22 | for every limit up to 65536 the product of two bases fits 32 bits |
| IdText.EmitDigit | crates/libs/nexigon-ids/src/encoding.rs:7-11 | one character, the remaining digit, and the base rounded up, in 32-bit arithmetic |
| IdText.EncodeRec | crates/libs/nexigon-ids/src/encoding.rs:13-29 | the recursion writes exactly the specified digits and never overflows |
| IdText.EncodeInto | crates/libs/nexigon-ids/src/encoding.rs:6-35 | `encode` appends exactly the specified text |
| IdText.FromBytes | crates/libs/nexigon-ids/src/lib.rs:730-763 | the specialised copy equals `encode` at base 58 and limit 65535 |
| IdText.TableInvertsAlphabet | crates/libs/nexigon-ids/src/lib.rs:38-60 | the digit table inverts the alphabet and has no other digits |
| IdText.DigitsAreTheAlphabet | crates/libs/nexigon-ids/src/lib.rs:517-523 | a character is a base 58 digit if and only if it is in the alphabet |
| IdText.FromStr | crates/libs/nexigon-ids/src/lib.rs:778-788 | accepts exactly strings over the alphabet, unchanged |
| IdText.FingerprintOf | crates/libs/nexigon-ids/src/lib.rs:583-588 | 32 bytes give exactly 44 characters that `FromStr` accepts |
| IdText.FingerprintsDiffer | crates/libs/nexigon-ids/src/lib.rs:583-588 | different digests give different fingerprints |
| Admission.EnterKeeps | crates/libs/nexigon-rpc/src/lib.rs:209-231 | choosing an actor's semaphore keeps keys and live semaphores one to one, the registry bounded and all accounts balanced |
| Admission.AssignKeeps | crates/libs/nexigon-rpc/src/lib.rs:233-250 | permits move from a semaphore to a waiter without loss, first the actor's and then the global ones |
| Admission.ReleaseKeeps | crates/libs/nexigon-rpc/src/lib.rs:252-256 | dropping a permit or a wait returns exactly what it held |
| Admission.ShrinkKeeps | crates/libs/nexigon-rpc/src/lib.rs:259-278 | shrinking keeps exactly the body's size of both budgets |
| Admission.AdmissionRuns | crates/libs/nexigon-rpc/src/lib.rs:209-278 | in every run held plus available is the capacity, globally and per actor semaphore; the acquisitions of a key share one dedicated semaphore and its capacity; the registry has at most 4096 entries |
| Admission.OwnShare | crates/libs/nexigon-rpc/src/lib.rs:209-231 | in every run an acquisition joins the shared semaphore only if its key has no live dedicated one and 4096 other keys have; otherwise it is with its key's live acquisitions, or alone with the whole capacity of an actor |
| Admission.AdmittedWithEnough | crates/libs/nexigon-rpc/src/lib.rs:233-250 | a waiter is admitted once its semaphore and the global budget can give what it needs |
| Admission.WeightedPool.RetainLive | crates/libs/nexigon-rpc/src/lib.rs:219-221 | the cleanup keeps exactly the entries whose semaphore is alive |
| Admission.WeightedPool.Acquire | crates/libs/nexigon-rpc/src/lib.rs:209-231 | an acquisition up to its first wait, in place, with a share of its own unless too many actors have one |
| Admission.WeightedPool.ShrinkTo | crates/libs/nexigon-rpc/src/lib.rs:259-278 | shrinking in place; zero bytes release everything |
| Admission.WeightedPool.Drop | crates/libs/nexigon-rpc/src/lib.rs:252-256 | dropping in place |

## Left out

- Multiplex.Run: nothing happens any more once either side is closing; `close_state`, which then empties the tables, is not modelled.
- Connection.Connection: the two halves of a channel are values in its table, not objects shared behind locks with their owners, so aliasing is not captured; every method is one critical section.
- Connection.Connection.HandleFrame: rate counters are not modelled (they may end the connection at any time, as `Terminate` does), and the ping fields are in `Liveness`.
- Connection.Connection.HandleOpen: the command queue between callers and the connection, and its limit, are not modelled; commands are handled at any time.
- Endpoint.OpenChannel: channel ids are unbounded, so the wrap-around of the 64-bit counter is not modelled.
- Endpoint.NextChunk: the endpoint's runs read bytes only; a whole chunk taken while one is partly read is in `ReceiveWindow.TakeItem`.
- Endpoint.HandleAccept: tombstones beyond the limit are dropped by a step of their own, at any later time, in the runs of two endpoints; the class does it at once.
- ReceiveWindow.Consume: whether a window grows (a measured round-trip time) is an arbitrary choice; bandwidth estimates and statistics are not modelled.
- Liveness.Act: deadlines expire and intervals elapse at any time; measured round-trip times are not modelled.
- OperationLoop.Step: temporary files, which loading discards, are not modelled.
- OperationAgent.Agent.Process: cancellation inside an iteration is a `Restart` of the protocol; the claim call, its rejection and the idle wait are not modelled.
- OperationLedger.Ledger.Load: parsing of entry files, and its failure, is not modelled; a file holds an entry. Other files in the directory, which are skipped or discarded, do not exist in the model.
- SchemaExpansion.Expand: error texts are not modelled, and lengths of patterns are counted in characters, not in UTF-8 bytes.
- SchemaExpansion.LinearPattern: whether a pattern compiles is a parameter.
- SchemaMeaning.Meaning: what the assertions about single values and the regular expressions accept are parameters; compilation by the jsonschema library is not modelled.
- `validate_schema_shape`, the byte limits on schemas and `validate_command_instance` are not modelled.
- Admission.Assign: a semaphore may serve its waiters in any order and in any portions; the queueing order of the real semaphores is not captured.
- `execute_with_admission`, `read_body` and the other framing of RPC bodies are not modelled beyond the permits they hold.
- IdText.FingerprintOf: the digest is any 32 bytes; hashing and random ids are not modelled.
- The transport, TLS, terminals, process execution, provisioning and the command line are not modelled.
