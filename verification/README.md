# A model of the transport, in Dafny

The repository is a client/server transport: frames in postcard form, a length prefix, Noise XX
encryption in chunks, a weighted fair scheduler for what goes out, a client that reconnects by
itself, request/response correlation, and an HTTP fallback that reads server-sent events. This
project models those parts and proves what they guarantee. `dafny verify dfyconfig.toml` checks it.

| file | what it models |
|---|---|
| `Scheduler.dfy`, `SchedulerRuns.dfy` | the credit scheduler as a class, and its runs: order, delay, fairness |
| `Priorities.dfy` | the scheduler by the names of the priorities |
| `Frame.dfy` | postcard, the length prefix, the accumulator |
| `WireFormat.dfy` | the bytes of a frame, read by place value |
| `Noise.dfy` | the Noise session: handshake, nonces, chunking, poisoning |
| `Handshakes.dfy` | two Noise sessions with any network between them |
| `ReceivePath.dfy`, `Receiving.dfy` | decrypt, reassemble and decode; `recv_one_frame` |
| `Pipe.dfy` | two endpoints and the channels between them, in every interleaving |
| `Heartbeat.dfy` | the two deadlines both message loops keep |
| `Links.dfy`, `Drains.dfy` | encrypting and sending frames, and draining a scheduler onto the wire |
| `Sessions.dfy`, `SessionRuns.dfy` | the server's session loop, and what holds over any number of its turns |
| `HeartbeatExchange.dfy` | what Ping and Pong do at the other end, and what ends a session |
| `ClientDrain.dfy` | the client's drain loop |
| `SessionPipe.dfy` | both loops as runs of the pipe's steps, and delivery end to end |
| `Answers.dfy` | from an answered request back to the frame the server sent |
| `Correlation.dfy` | request ids, the pending map, dispatch, timeouts, the clear on a disconnect |
| `Lifecycle.dfy`, `LifecycleTraces.dfy` | the connection loop and the user's threads as a step machine; what it publishes |
| `Decisions.dfy` | what each of the peer's decisions and each command leads to, and what makes a client Online |
| `Wakeups.dfy`, `Stranding.dfy` | cancel and wakeups, and exactly when one is lost |
| `Resets.dfy` | exactly when a reconnect resets the failure count |
| `Scenarios.dfy` | concrete runs of that machine, and panics in the backoff arithmetic |
| `ConnectionLoop.dfy` | the connection loop as nested loops, shown to do what that machine does on every schedule |
| `Version.dfy` | version negotiation, both sides |
| `Backoff.dfy` | the reconnection delays |
| `Sse.dfy`, `Text.dfy` | the incremental event-stream parser, and the string operations it uses |
| `EventStream.dfy` | event streams as the standard reads them, and when the parser agrees |
| `Basics.dfy`, `Commands.dfy` | options, results, bytes; the commands of the client |

Code that updates fields is a class whose methods are proved against functions on values
(`WfqScheduler`, `FrameAccumulator`, `NoiseSession`, `Link`, `ServerSession`, `Client`,
`SseParser`, `Background`); what the code promises is then proved about those functions.
Concurrency is a step machine: a run is any list of atomic steps, a step that is not enabled
changes nothing, and a theorem about runs is about all of them.

## What does not hold

Each of these is proved, with the input that shows it and the condition under which the
property does hold.

- A server version that contains `PROTOCOL_ACCEPTED`, which is a valid version, makes every client
  continue after a rejection (`Version.Disagreement`); every other version is negotiated correctly
  (`Version.Agreement`).
- A wakeup can be lost. `set_endpoint` and `set_auto_reconnect` ignore a full command channel. At
  their `try_send` the parked loop is stranded if and only if the channel is full and holds no command
  that wakes it (`Stranding.StrandedIff`); runs that strand both waits exist
  (`Stranding.LostEndpoint`, `Stranding.LostReconnect`). Without a full channel it cannot happen
  (`Wakeups.NoLostWakeup`).
- With the default backoff, 64 failed attempts in a row end the connection loop for good: the delay
  is converted to a `Duration` before it is capped, and 2^64 seconds do not fit
  (`Backoff.DefaultPanicsIff`, `Panics.DefaultPanics`, `Panics.DefaultPanicNeeds`).
- The comment on `reconnect` says that it resets the backoff. The call first has to find room in the
  command channel (`Resets.CallQueuesIff`): a full one drops it without a word, in backoff too
  (`Resets.DroppedInBackoff`). Once queued, the command resets the count if it is taken in backoff,
  after Unauthorized or while auto-reconnect is off. It does not while the loop waits for an endpoint,
  where it is ignored (`Resets.IgnoredWithoutEndpoint`); when it ends a version mismatch, which adds a
  failure, because the handshake returns `Err(None)` and its caller counts it
  (`Resets.MismatchCounted`); and when it ends a connection with auto-reconnect on, which counts as a
  lost one (`Resets.OnlineCounted`). `Resets.ReconnectResetsIff` is the exact condition for a command
  that is taken, over all runs, and `Resets.ReconnectLeadsTo` the attempt number in every case. The
  model follows the code.
- After 2^32 requests an id comes round again, and a newcomer drops a request that still waits with
  it (`CorrelationRuns.ReuseDrops`); until then only a disconnect does
  (`CorrelationRuns.OnlyClearsDrop`). The one request in 2^32 that gets id 0 is never answered
  (`CorrelationRuns.IdZeroUnanswered`).
- The event-stream parser trims every field, so a printed event comes back unchanged exactly when no
  field has white space at an end (`SseRoundTrip.ExactRoundTrip`). An event without data leaves its
  type behind for the next one (`SseRoundTrip.KindLeaks`), and an empty type is reported as it is; the
  calls are those of a parser that resets the type, with the same trimming and line ends, exactly when
  neither happens to an event with data (`SseRoundTrip.ResetIff`). Section 9.2.6 of the WHATWG HTML
  standard drops one leading space instead of trimming. For printed events whose fields hold no line
  end, `EventStream.StandardIff` says exactly when the calls are those the standard dispatches. The
  standard also ends a line at a lone carriage return, which the parser takes for data
  (`EventStream.LoneReturn`).
- Frames that do not fit the receiver's limit, or whose length does not fit 32 bits, stop the
  receiver; what it decoded until then is still a prefix of what was sent (`Pipe.Delivery`).

## Model

| member | source | states |
|---|---|---|
| Scheduler.WfqScheduler.constructor | src/scheduler.rs:52-57 | a new scheduler is empty with every class at its weight |
| Scheduler.WfqScheduler.Enqueue | src/scheduler.rs:60-62 | the item joins the tail of its class; credits and other classes are untouched |
| Scheduler.WfqScheduler.Pop | src/scheduler.rs:66-83 | the two array scans compute exactly the value-level pop that the run theorems are about: first class with credit and items, or a reset and the first class with items |
| Scheduler.WfqScheduler.IsEmpty | src/scheduler.rs:95-97 | true iff no item is queued anywhere |
| Scheduler.WfqScheduler.Len | src/scheduler.rs:100-102 | the number of items in all classes |
| Scheduler.PopSomeIffQueued | src/scheduler.rs:64-83 | a pop serves something iff something is queued, and removes just that; an empty scheduler gets full credits |
| SchedulerRuns.Fifo | src/scheduler.rs:60-83 | conservation and order: per class, what was served followed by what is queued is what was queued followed by what was pushed, over any run |
| SchedulerRuns.DelayBound | src/scheduler.rs:49-83 | any item at position p of class i has left after (15 - W[i]) + 15*(p div W[i]) + the weights above i + (p mod W[i]) + 1 pops, whatever is enqueued meanwhile, and as that class's item number p |
| SchedulerRuns.DelayBoundTight | src/scheduler.rs:49-83 | the bound is attained in a reachable state, for every class and position |
| SchedulerRuns.PopLowersMeasure | src/scheduler.rs:66-83 | every pop lowers the credit-dependent waiting measure of every item it leaves |
| SchedulerRuns.ServedByRounds | src/scheduler.rs:66-83 | a class backlogged throughout is served its weight once per reset plus the credits it spent |
| SchedulerRuns.Fairness | src/scheduler.rs:49-83 | while classes i and j stay backlogged their scaled service differs by at most 2*W[i]*W[j], and by at most W[i]*W[j] from full credits |
| SchedulerRuns.FairnessTight | src/scheduler.rs:49-83 | a reachable run attains the factor 2, for every pair of classes |
| SchedulerRuns.FullRounds | src/scheduler.rs:11-17 | n full rounds with every class backlogged serve exactly 8n, 4n, 2n and n |
| Priorities.MostUrgentFirst | src/scheduler.rs:20-83 | of any items pushed to a new scheduler, the first served is one with none more urgent (RealTime over Normal over Stream over Bulk) and none before it at its own priority |
| Priorities.RoundShares | src/scheduler.rs:11-83 | n full rounds with all four priorities backlogged serve 8n RealTime, 4n Normal, 2n Stream and n Bulk items |
| Frames.VarintRoundTrip | src/frame.rs:15-27 | a varint of a value in range reads back, whatever follows it |
| Frames.DecodeEncode | src/frame.rs:46-59 | decoding the postcard form of any frame gives that frame, whatever bytes follow |
| Frames.PostcardInjective | src/frame.rs:46-59 | two frames with the same bytes are the same frame |
| Frames.CutShortFails | src/frame.rs:56-59 | a frame's bytes cut short anywhere are a decoding error |
| Frames.FrameAccumulator.Feed | src/frame.rs:84-118 | one call updates the two fields and answers as the value-level feed does, errors included |
| Frames.FeedBounded | src/frame.rs:84-118 | after every success on any input the accumulator is idle and empty, or holds fewer bytes than expected and expects no more than the limit |
| Frames.Reassembly | src/frame.rs:47-54 | for any split of a prefixed payload that fits: nothing before the last piece, the exact payload on it, iff the first piece holds the prefix and the last of several is not empty |
| Frames.Le32RoundTrip | src/frame.rs:51-51 | the little-endian length prefix reads back |
| WireFormat.EncodedLayout | src/frame.rs:47-54 | the first four bytes, read with the least significant first, are the payload's length modulo 2^32, and the payload follows |
| WireFormat.ReadsLeastFirst | src/frame.rs:95-98 | the accumulator reads the prefix with the least significant byte first |
| WireFormat.PostcardLayout | src/frame.rs:15-50 | the payload is a varint of the id, the kind's byte (0 Message, 1 Event, 2 Ping, 3 Pong), a varint of the number of data bytes, and the data |
| WireFormat.VarintUnique | src/frame.rs:47-50 | a varint by place value, seven bits a byte with the least significant first and no byte to spare, can be written in one way only |
| WireFormat.HeartbeatBytes | src/ws/server/session.rs:69-69 | the Ping and the Pong, byte by byte |
| Noise.NoiseSession.ReadMessage | src/crypto.rs:71-100 | the taken state, the five outcomes and the state left behind, None after any failure |
| Noise.NoiseSession.WriteMessage | src/crypto.rs:104-133 | the same for sending |
| Noise.NoiseSession.EncryptChunked | src/crypto.rs:142-151 | the loop over 65519-byte chunks seals them in order, and stops at the first failure |
| Noise.NoiseSession.DecryptChunked | src/crypto.rs:154-162 | the loop opens the packets in order and joins the plaintexts |
| Noise.NoiseSession.IsFinished | src/crypto.rs:136-138 | true iff the session is in transport mode |
| Noise.ChunksShape | src/crypto.rs:142-151 | the chunks join to the payload, none is empty or over the limit, and there are ceil(n / 65519) of them |
| Noise.ChunkedRoundTrip | src/crypto.rs:140-162 | decrypting undoes encrypting for every payload and history; every packet fits 65535 bytes; the ends stay in step |
| Noise.FailurePoisons | src/crypto.rs:76-95 | the session has a state iff no call on it has failed |
| Noise.FailureIsFinal | src/crypto.rs:76-132 | after any failure every later call fails |
| Noise.WhichError | src/crypto.rs:71-133 | a failing call returns InvalidState, HandshakeFailed, EncryptFailed or DecryptFailed by whether the state is lost, the handshake is on, and the direction |
| Noise.PacketSizes | src/crypto.rs:12-13 | a payload of n bytes makes ceil(n / 65519) packets, all but the last of exactly 65535 bytes |
| Noise.RoomNeeded | src/crypto.rs:123-131 | below the last nonce, a transport message is written exactly if it and its 16-byte tag fit the buffer and 65535 bytes |
| Noise.LastNonce | src/crypto.rs:123-131 | the nonce 2^64 - 2 seals, 2^64 - 1 does not |
| Noise.HandshakeSizes | src/crypto.rs:8-10 | the three handshake messages are 32, 96 and 64 bytes long |
| Noise.FinishedAfterThree | src/crypto.rs:135-138 | a session is in transport mode iff three calls have succeeded, and the first three alternate, the client writing first |
| Noise.PerformHandshake | src/ws/client/connection_loop.rs:302-333 | the client's three steps, and the server's (src/ws/server/mod.rs:84-119), end with both sides in transport mode with the same keys |
| ReceivePath.OneFrame | src/ws/client/connection_loop.rs:439-472 | the chunks of one frame that fits decode to that frame at the last chunk and not before; one that does not fit stops the receiver and decodes to nothing |
| ReceivePath.StreamDecodes | src/ws/server/session.rs:62-92 | any number of chunks of a stream of frames decodes to a prefix of the frames; the receiver goes on while all fit, and if it lives past the last chunk it has decoded exactly the frames |
| Receiving.ReceivePacket | src/ws/client/connection_loop.rs:439-472 | one Binary message: decrypt, feed, decode, with each error arm |
| Receiving.RecvOneFrame | src/ws/client/connection_loop.rs:560-587 | the loop returns the first frame completed, or the error that ended it, and leaves the rest unread |
| Receiving.ReadsOneFrame | src/ws/client/connection_loop.rs:558-587 | fed the packets of one frame it reads exactly those packets, whatever follows |
| Receiving.WhyBadPacket | src/ws/client/connection_loop.rs:439-472 | a packet is refused by the cipher, or completes something that is no frame, or is too much, and the error says which |
| Receiving.ReadEnds | src/ws/client/connection_loop.rs:568-586 | reading one frame ends with the stream, with a packet that does not open, or with the packet that completes a payload or too much, and leaves the rest unread |
| Pipe.RunKeeps | src/ws/client/connection_loop.rs:427-556 | the invariant of two endpoints and two channels, over every interleaving |
| Pipe.Delivery | src/ws/client/connection_loop.rs:435-552 | what one side has decoded is a prefix of what the other has sent, and equal once the channel is empty and the receiver still runs |
| Pipe.NoErrorArm | src/ws/server/session.rs:48-92 | no decrypt, feed, decode or encrypt error while every frame received fits and the frames handed to the cipher make at most 2^64 - 1 packets |
| Pipe.EncryptFaultIff | src/ws/server/session.rs:104-115 | the cipher refuses no frame iff those handed to it make at most 2^64 - 1 packets; the encryption fault is the refusal of a frame from the scheduler, which is then lost |
| Pipe.WireOrder | src/ws/client/connection_loop.rs:480-523 | per class: frames enqueued = frames sent, then the one lost in progress if any, then the queue |
| Heartbeat.CloseMeansSilence | src/ws/client/connection_loop.rs:424-437 | a heartbeat close happens only after interval + timeout without a Binary message |
| Heartbeat.SilenceEnds | src/ws/client/connection_loop.rs:533-553 | when due deadlines fire before time passes them, an open connection is never later than last message + interval + timeout, however many commands are handled |
| Heartbeat.NeverStuck | src/ws/server/session.rs:39-46 | an open connection can let time pass or has a deadline due |
| Heartbeat.ArmFollows | src/ws/server/session.rs:131-151 | the arms a loop takes at its times make one run of the heartbeat, so what holds of runs holds of the loop |
| Heartbeat.SilentRun | src/ws/server/session.rs:131-151 | a silent connection pings once at the interval and closes at the timeout after it |
| Handshakes.SameKeys | src/crypto.rs:71-138 | for every interleaving of calls on a client's and a server's session, and whatever the network holds back, repeats, reorders or returns: a finished session has the keys of both and its own role, and the server does not finish before the client has written its last message |
| Handshakes.OpensWhatWasSealed | src/crypto.rs:71-133 | over the same runs, what each side has opened in transport mode is a prefix of what the other has sealed |
| Links.Link.SendFrame | src/ws/server/session.rs:105-123 | true iff the frame can be encrypted and the stream accepts all its packets; the wire gains them, or on failure those accepted before it |
| Links.SentAllIs | src/ws/server/session.rs:104-124 | frames handed over one after another all go out iff the sends and the nonces last for all their chunks, and then the wire gains exactly their packets, numbered on from the last |
| Links.SentAllShort | src/ws/server/session.rs:104-124 | otherwise the wire gains fewer packets, the first of them in order, and no more can be sent |
| Links.SentIsDecoded | src/ws/server/session.rs:44-123 | the packets of frames sent open, at the peer in step with the sender, to the chunks of the frames, and a fresh receiver decodes exactly those frames |
| Drains.Drain | src/ws/server/session.rs:104-124 | the drain loop leaves the line, the scheduler and the answer that the value-level drain does |
| Drains.FlushIs | src/ws/server/session.rs:104-124 | a drain succeeds iff every frame can be sent in the order the scheduler serves them; the line then carries them all and the scheduler is empty with full credits; a failing drain stops at the first frame that cannot be sent |
| Drains.DrainPongsAndFrame | src/ws/server/session.rs:100-124 | a frame that is not RealTime goes out after at most 8 waiting Pongs, a RealTime one after all of them |
| Sessions.ServerSession.constructor | src/ws/server/session.rs:34-37 | a session starts with nothing queued, delivered or accumulated and its first deadline set |
| Sessions.ServerSession.OnIncoming | src/ws/server/session.rs:42-96 | a message puts the heartbeat off and goes through the cipher and the accumulator, whose new states are given; every error arm ends the loop |
| Sessions.ServerSession.OnFrame | src/ws/server/session.rs:66-79 | a Ping queues one Pong and sends nothing, a Pong does nothing, other frames go to the inbox or end the loop when it is closed |
| Sessions.ServerSession.OnSend | src/ws/server/session.rs:100-126 | the frame is queued and everything queued is drained; the loop ends iff the drain fails |
| Sessions.ServerSession.OnHeartbeat | src/ws/server/session.rs:131-151 | the first missed deadline hands a Ping to the line and goes on whether or not it can be sent, the second ends the loop |
| Sessions.ServerSession.Run | src/ws/server/session.rs:39-153 | over any script of turns the loop leaves the whole state the value-level session comes to, and ends when that does |
| SessionRuns.SelectPoint | src/ws/server/session.rs:39-130 | as long as the loop goes on: classes 1 to 3 are empty, class 0 holds only Pongs and the credits are full; Pongs served and waiting are one for each Ping decoded and for each the application sent; apart from Pongs, what was served is the Send commands' frames in order; the inbox got every other frame decoded, in order |
| SessionRuns.SendGoesOn | src/ws/server/session.rs:100-126 | a Send leaves the loop going iff the sends and the nonces last for its frame and the Pongs around it |
| SessionRuns.WireIs | src/ws/server/session.rs:98-151 | over any turns the wire gains the packets of exactly the frames served and the heartbeat's Pings, in order, iff the sends and the nonces last for all of them, and otherwise the first part of those packets |
| SessionRuns.HeartbeatFollows | src/ws/server/session.rs:36-151 | the deadline and the flag of the loop are those of a heartbeat run over its turns; an end by the heartbeat means interval + timeout without a message |
| HeartbeatExchange.EndsIff | src/ws/server/session.rs:41-151 | a turn ends the session iff it is not Binary, does not open, reassemble or decode, brings a frame to a closed inbox, is a Close, is a Send whose frames cannot all go out, or is the second miss in a row |
| HeartbeatExchange.MissIsAnswered | src/ws/server/session.rs:66-151 | the one packet a missed deadline sends makes a peer in step queue exactly one Pong in its first class and put off its deadline, and leaves its inbox alone |
| HeartbeatExchange.AnswerPutsOff | src/ws/server/session.rs:44-73 | the Pong sent back puts off the deadline of the loop that waits for it, and does nothing else |
| HeartbeatExchange.PingsAreMisses | src/ws/server/session.rs:131-151 | over any turns the Pings handed to the line, apart from the application's, are one for each deadline missed for the first time |
| ClientDrain.TakeArrivals | src/ws/client/connection_loop.rs:507-520 | the try_recv loop queues every Send in order, ignores WakeUp, and asks for a disconnect iff an EndpointChanged or Reconnect arrived |
| ClientDrain.DrainSends | src/ws/client/connection_loop.rs:480-523 | the drain loop leaves the line, the scheduler and the exit that the value-level drain does, whatever arrives meanwhile |
| ClientDrain.DrainIs | src/ws/client/connection_loop.rs:484-522 | a drain is a run of the scheduler; it fails iff a frame it takes cannot be sent; the line carries the frames taken, in order; a clean exit leaves an empty scheduler with full credits |
| ClientDrain.NothingLost | src/ws/client/connection_loop.rs:480-523 | per class, what was queued and consumed is what was taken and then what is queued; every frame taken but a failing last one was sent |
| ClientDrain.CutOff | src/ws/client/connection_loop.rs:507-521 | the drain is cut off iff an EndpointChanged or a Reconnect was among the commands it took, and in the round that took the first |
| SessionPipe.SessionSteps | src/ws/server/session.rs:39-153 | while its sends last, any number of turns is a run of the pipe's steps with the same frames sealed, packets sent and taken, and frames decoded |
| SessionPipe.DrainSteps | src/ws/client/connection_loop.rs:480-523 | so is a drain of the client that does not fail |
| SessionPipe.SessionDelivers | src/ws/server/session.rs:39-153 | a server session and any client, in every interleaving of the session's turns with the client's steps: the session decodes a prefix of the frames the client sent, and the client a prefix of those the session offered, all of them once nothing is on its way and the client still runs |
| Correlation.StepKeeps | src/ws/client/mod.rs:168-234 | every atomic step keeps the correlation invariant: a living sender is in its own entry or in the dispatcher's hand, never both |
| CorrelationRuns.OneOwner | src/ws/client/mod.rs:173-175 | each pending id belongs to one request, which is unanswered; no other request has it while at most 2^32 ids were taken |
| CorrelationRuns.SameIdIff | src/ws/client/mod.rs:66-66 | two requests share an id iff a multiple of 2^32 allocations lies between them |
| CorrelationRuns.StillAnswerable | src/ws/client/mod.rs:187-197 | a waiting request that is neither answered nor dropped has its sender in the map or in the dispatcher's hand |
| CorrelationRuns.AnswerIsOwn | src/ws/client/mod.rs:228-234 | Ok comes only from a received Message frame with the request's own non-zero id, received after the request was inserted |
| CorrelationRuns.AnswersDistinct | src/ws/client/mod.rs:230-234 | no frame answers two requests |
| Answers.AnswerWasSent | src/ws/client/mod.rs:168-234 | over any number of connections and every interleaving on each, an answered request got one definite frame that the server sent, a Message with the request's own non-zero id, and no other request got that frame |
| CorrelationRuns.FinishOnce | src/ws/client/mod.rs:187-197 | an outcome never changes again |
| CorrelationRuns.TimesOut | src/ws/client/mod.rs:193-196 | in every run, a wait that runs out ends the request as timed out and takes its id out of the map |
| CorrelationRuns.FindsDropped | src/ws/client/mod.rs:189-192 | a wait whose sender is gone ends the request as dropped and takes its id out of the map |
| CorrelationRuns.RefusedOnceEnded | src/ws/client/mod.rs:182-185 | a command is refused exactly if the loop has ended, and the entry stays in the map |
| CorrelationRuns.GivenUp | src/ws/client/mod.rs:228-234 | once a caller has given up, the frame for its request removes the entry and answers nobody |
| CorrelationRuns.ClearedNeverAnswered | src/ws/client/connection_loop.rs:204-206 | a request cleared by a disconnect is answered in no later run |
| CorrelationRuns.AnswerArrives | src/ws/client/mod.rs:187-234 | conversely a frame for a waiting request, dispatched before the timeout, is its answer |
| CorrelationRuns.OnlyClearsDrop | src/ws/client/mod.rs:187-197 | while at most 2^32 ids were taken, a request whose entry was not cleared never fails for want of its sender |
| CorrelationRuns.ReuseDrops | src/ws/client/mod.rs:173-175 | with one id more a newcomer drops a waiting request |
| CorrelationRuns.IdZeroUnanswered | src/ws/client/mod.rs:230-240 | the request that gets id 0 is never answered |
| Correlator.Client.TakeId | src/ws/client/mod.rs:173-173 | fetch_add: request number k gets id (2 + k) mod 2^32 |
| Correlator.Client.Insert | src/ws/client/mod.rs:174-175 | the sender is inserted, and one under the same id is dropped |
| Correlator.Client.DispatchFrame | src/ws/client/mod.rs:228-259 | which frames answer a request, reach the handler or do nothing, and that a Ping sends an empty Pong with id 0 in the first class |
| Correlator.Client.ClearAll | src/ws/client/connection_loop.rs:206-206 | the retain loop empties the map, drops exactly the senders it held, and is a run of single clears |
| Correlator.Client.ReturnFailure | src/ws/client/mod.rs:189-196 | a failed wait removes its entry and returns its failure |
| Lifecycle.RunKeeps | src/ws/client/connection_loop.rs:19-231 | over every interleaving with the users, everything the loop logs is allowed where it stands |
| LifecycleTraces.OnlineIsEarned | src/ws/client/connection_loop.rs:92-193 | every Online comes directly after Connecting, Handshaking, Authenticating and either no payload or WaitingForAuth and Success |
| Decisions.OnlineIsGranted | src/ws/client/connection_loop.rs:92-193 | Online is published only on an attempt on which the connection was opened, the version accepted, the Noise handshake successful and the authentication not needed or successful, in that order and with no other decision |
| Decisions.ConnectFails | src/ws/client/connection_loop.rs:95-104 | in every run, a connection that cannot be opened publishes Error, counts one failure and starts over |
| Decisions.ReplyFails | src/ws/client/connection_loop.rs:281-287 | so does a reply that is neither word |
| Decisions.ReplyRejects | src/ws/client/connection_loop.rs:248-262 | a rejected version publishes VersionMismatch and waits, the count unchanged |
| Decisions.NoiseFails | src/ws/client/connection_loop.rs:139-145 | a failed Noise handshake counts one failure and starts over, and publishes nothing |
| Decisions.AuthFails | src/ws/client/connection_loop.rs:181-187 | a failed authentication publishes Error, counts one failure and starts over |
| Decisions.AuthRejects | src/ws/client/connection_loop.rs:157-175 | a rejection publishes Unauthorized twice and waits, the count unchanged |
| Decisions.GrantedGoesOnline | src/ws/client/connection_loop.rs:190-193 | no payload, or a successful outcome, publishes Online and clears the count |
| Decisions.ConnectionEnds | src/ws/client/connection_loop.rs:205-229 | a connection that ends publishes Disconnected, and counts as the first failure or, with auto-reconnect off, is waited out |
| Decisions.NoEndpointYet | src/ws/client/connection_loop.rs:28-48 | without an endpoint an attempt publishes Disconnected and waits |
| Decisions.DelayAhead | src/ws/client/connection_loop.rs:58-72 | with a positive delay the loop backs off, and publishes Reconnecting exactly if the client has been Online before |
| Decisions.Dials | src/ws/client/connection_loop.rs:76-95 | without a delay, or once it is slept out, Connecting is published |
| Decisions.WithoutEndpoint | src/ws/client/connection_loop.rs:42-46 | in every run, EndpointChanged ends the wait for an endpoint and no other command does |
| Decisions.BackingOff | src/ws/client/connection_loop.rs:77-88 | every command ends a backoff; Reconnect and EndpointChanged clear the count, the others leave it |
| Decisions.Mismatched | src/ws/client/connection_loop.rs:266-279 | Reconnect and EndpointChanged end a version mismatch as one more failure, and no other command ends it |
| Decisions.NotAuthorized | src/ws/client/connection_loop.rs:168-173 | WakeUp, Reconnect and EndpointChanged end Unauthorized with the count cleared, and no other command ends it |
| Decisions.WithoutAuto | src/ws/client/connection_loop.rs:217-221 | Reconnect and EndpointChanged end the wait while auto-reconnect is off, and no other command does |
| Decisions.WhileOnline | src/ws/client/connection_loop.rs:478-531 | outside a drain Reconnect and EndpointChanged end the connection, a Send begins a drain and WakeUp does nothing; inside one no command ends it |
| Decisions.DrainIsOver | src/ws/client/connection_loop.rs:507-523 | a drain that finds no closing command returns to the message loop and publishes nothing |
| Decisions.ShutdownReturns | src/ws/client/connection_loop.rs:23-41 | a shutdown makes a loop that waits for a command, anywhere but in a drain, return by itself |
| LifecycleTraces.UnauthorizedHolds | src/ws/client/connection_loop.rs:157-180 | Unauthorized is left only by WakeUp, Reconnect, EndpointChanged or the cancel |
| LifecycleTraces.VersionMismatchHolds | src/ws/client/connection_loop.rs:254-279 | VersionMismatch is left only by Reconnect, EndpointChanged or the cancel |
| LifecycleTraces.ReleaseAddsFailure | src/ws/client/connection_loop.rs:276-279 | leaving it adds one failure to the count |
| Resets.CallQueuesIff | src/ws/client/mod.rs:121-124 | the call changes anything iff the channel has room, and then it queues a Reconnect behind what is there |
| Resets.DroppedInBackoff | src/ws/client/mod.rs:121-124 | for every capacity a run in which a reconnect called in backoff is dropped and the loop goes on at attempt 1 |
| Resets.ReconnectLeadsTo | src/ws/client/mod.rs:121-124 | in every run and every continuation, the attempt number with which the loop next comes round after a Reconnect was taken, for each place it can be taken at |
| Resets.ReconnectResetsIff | src/ws/client/mod.rs:121-124 | that number is 0 iff the Reconnect was taken in backoff, while unauthorized or without auto-reconnect, without an endpoint at a zero count, on a connection after which the loop reads that auto-reconnect is off, or as the counter wraps; if nobody sets the flag meanwhile it is the flag at the reconnect |
| Resets.LostIffAuto | src/ws/client/connection_loop.rs:208-229 | the flag read after a connection that a Reconnect ended is the flag at the reconnect, if nobody sets it meanwhile, and the connection is counted as lost iff it is on |
| Resets.MismatchCounted | src/ws/client/connection_loop.rs:276-279 | a run in which a Reconnect ends a version mismatch at count 0 and leads to attempt 1 |
| Resets.OnlineCounted | src/ws/client/connection_loop.rs:227-229 | a run in which a Reconnect ends a connection and leads to attempt 1 |
| Resets.IgnoredWithoutEndpoint | src/ws/client/connection_loop.rs:36-48 | a run in which a Reconnect taken without an endpoint leaves the count at 1 and the loop waiting |
| LifecycleTraces.CallerArmUnreachable | src/ws/client/connection_loop.rs:107-132 | the caller is never handed a VersionMismatch, so its arm for one is dead |
| LifecycleTraces.AttemptCountsFailures | src/ws/client/connection_loop.rs:20-20 | `reconnect_attempt` is the number of failures since the last reset (mod 2^32), a lost connection counting as one |
| LifecycleTraces.ReconnectingMeans | src/ws/client/connection_loop.rs:61-69 | Reconnecting appears only after some Online, with the failures so far and their positive delay |
| LifecycleTraces.ConnectingWaited | src/ws/client/connection_loop.rs:58-92 | a Connecting whose attempt has a positive delay directly follows that delay slept out in full |
| Wakeups.AtMostOneMoreConnect | src/ws/client/connection_loop.rs:23-92 | after the cancel at most one more Connecting is published, and none unless the loop was between reading the endpoint and dialling |
| Wakeups.SawCancelMeans | src/ws/client/connection_loop.rs:37-41 | the loop sees only a cancel that has happened |
| Wakeups.NoLostWakeup | src/ws/client/mod.rs:90-124 | a loop parked without endpoint while one is set, or without auto-reconnect while it is on, has a releasing command queued or a setter about to send it, unless the channel was full |
| Stranding.StrandedIff | src/ws/client/mod.rs:90-114 | at the try_send of set_endpoint or set_auto_reconnect to a loop parked for want of it: the loop is stranded iff the channel is full and holds no command that wakes it, and otherwise it wakes |
| Stranding.LostEndpoint | src/ws/client/mod.rs:90-95 | for every capacity a run strands the loop that waits for an endpoint |
| Stranding.LostReconnect | src/ws/client/mod.rs:109-114 | and one strands the loop that waits for auto-reconnect |
| Stranding.StrandedStays | src/ws/client/connection_loop.rs:36-48 | a stranded loop does nothing of itself |
| Panics.PanicMeans | src/ws/client/connection_loop.rs:59-59 | a loop that panicked asked for a delay that does not exist |
| Panics.UnreachablePanics | src/ws/client/connection_loop.rs:59-104 | a strategy whose delay number n is the first to panic ends the loop on a server that stays unreachable |
| Panics.DefaultPanicNeeds | src/ws/client/config.rs:64-68 | with the default strategy a panic takes 64 failures without a reset |
| Panics.DefaultPanics | src/ws/client/config.rs:64-68 | and 64 are enough |
| ConnectionLoop.Background.Loop | src/ws/client/connection_loop.rs:19-231 | the nested loops, on any schedule of the users', the peer's and their own steps: the log, the place and the counter they end with are those the step machine has on the whole schedule |
| ConnectionLoop.Background.Park | src/ws/client/connection_loop.rs:36-48 | each wait ends on the cancel, on a command that wakes the loop there or, in backoff, on the delay, and that is what is logged; with any other command it goes on |
| ConnectionLoop.Background.ReadEndpoint | src/ws/client/connection_loop.rs:28-69 | the place after the endpoint is read and the delay computed, and what is published on the way |
| ConnectionLoop.Background.HandleVersion | src/ws/client/connection_loop.rs:233-289 | for each reply, what is published and where it leads, a mismatch being waited out inside |
| ConnectionLoop.Background.HandleNoise | src/ws/client/connection_loop.rs:137-145 | the loop goes on to the authentication iff the handshake succeeded, and otherwise the attempt has failed |
| ConnectionLoop.Background.HandleAuth | src/ws/client/connection_loop.rs:336-414 | what is published for no payload and for each outcome, and where it leads; a rejection ends only in what ends its wait |
| ConnectionLoop.Background.MessageLoop | src/ws/client/connection_loop.rs:416-556 | Disconnected is published once, and the loop ends only by the cancel, a cause outside, or a Reconnect or EndpointChanged taken outside a drain |
| Version.ValidateProtocolString | src/utils.rs:1-16 | succeeds iff every character is a letter, digit, dot, dash or underscore |
| Version.ServerAcceptsIff | src/ws/server/mod.rs:48-75 | for valid strings the server accepts iff name and version are equal, and otherwise sees the client's true version |
| Version.Agreement | src/ws/client/connection_loop.rs:246-257 | the client continues iff the server accepted or the server's version contains PROTOCOL_ACCEPTED; on a rejection it recovers exactly the server's version |
| Version.Disagreement | src/ws/client/connection_loop.rs:247-247 | a valid configuration in which the client continues after a rejection |
| Version.ReadIs | src/ws/client/connection_loop.rs:246-288 | for any reply: an acceptance iff the accepting word stands somewhere in it, an error iff neither word does, otherwise a mismatch with the version after the rejecting word at its start, or "unknown" |
| Version.HelloText | src/ws/client/connection_loop.rs:239-242 | a hello, cut at the blanks, is the name and the version |
| Backoff.PanicsIff | src/ws/client/backoff.rs:47-83 | for every multiplier, computing a delay panics iff the uncapped delay is negative or does not fit a Duration, and with one of at least 0 it is never negative |
| Backoff.DelaysGrow | src/ws/client/backoff.rs:47-83 | delays never shrink and stay at the cap once there |
| Backoff.OverflowStays | src/ws/client/backoff.rs:47-83 | once a delay overflows, every later one in range does |
| Backoff.CappedRecurrence | src/ws/client/backoff.rs:47-83 | each delay is the one before it, grown once and capped |
| Backoff.FirstDelays | src/ws/client/backoff.rs:22-83 | a constant strategy always waits the same; the others do not wait at attempt 0 and wait the capped initial delay at attempt 1 |
| Backoff.LinearSteps | src/ws/client/backoff.rs:46-54 | each linear delay is the one before it and a step more, capped |
| Backoff.ExponentialSteps | src/ws/client/backoff.rs:74-83 | each exponential delay is the one before it times the multiplier, capped |
| Backoff.DefaultSchedule | src/ws/client/config.rs:64-68 | 2, 4, 8, 16, then 30 seconds up to attempt 63, then a panic |
| Backoff.DefaultPanicsIff | src/ws/client/backoff.rs:79-81 | of all u32 attempts exactly 64 to 2^31 panic |
| Sse.SseParser.HandleLine | src/http/client.rs:325-340 | one complete line: dispatch, type, data or ignored |
| Sse.SseParser.Feed | src/http/client.rs:320-341 | a chunk leaves the parser as reading its characters one by one does, with no newline left over; the inner loop ends |
| Sse.SseParser.ReadStream | src/http/client.rs:317-343 | a whole stream is parsed up to its first error, which is what it returns |
| Sse.ChunkingIndependent | src/http/client.rs:317-342 | two ways of cutting up the same text make the same calls and leave the same parser |
| SseRoundTrip.RoundTrip | src/http/client.rs:323-341 | printed events parse, under any chunking, to exactly the expected calls and a clean parser |
| SseRoundTrip.CallsCarry | src/http/client.rs:328-338 | under any chunking there is one call for each event with data, and its data, cut at the newlines, are the event's trimmed lines |
| Text.SplitJoin | src/http/client.rs:330-330 | joined lines, cut at the newlines, are the lines |
| Text.TrimIs | src/http/client.rs:335-338 | a trimmed text is the text without the white space at its ends, all of it |
| Text.ContainsIff | src/ws/client/connection_loop.rs:247-248 | a text contains another iff the other stands somewhere in it |
| SseRoundTrip.ExactRoundTrip | src/http/client.rs:323-341 | events with data come back unchanged iff no field has white space at an end |
| SseRoundTrip.KindLeaks | src/http/client.rs:327-336 | the type of an event without data is reported for the next event, which is wrong iff it is not "message" |
| SseRoundTrip.ResetIff | src/http/client.rs:323-341 | under any chunking the calls are those of the reset rule, with the parser's own trimming and line ends, iff no event with data and no type of its own follows a leftover type other than "message" and none has an empty type |
| EventStream.StandardReads | src/http/client.rs:322-341 | section 9.2.6 of the WHATWG HTML standard, read character by character, dispatches for printed events the events with data, each with its own type or "message" and its values without one leading space |
| EventStream.StandardIff | src/http/client.rs:322-341 | under any chunking the calls are those the standard dispatches iff no event with data takes over a leftover type other than "message", none has an empty type, and none of their fields has white space at an end but one leading space |
| EventStream.LoneReturn | src/http/client.rs:323-325 | a carriage return inside a field is data to the parser and a line end to the standard |

## Left out

- Sockets, TLS and stream adapters: an ordered, lossless channel that may stop.
- The cryptography inside `snow`: a sealed packet is a role, a nonce, the keys and the plaintext, and opens only for the peer that expects that nonce. Key pinning and key generation are not modelled.
- `postcard` and `snow` are not part of the repository; their formats follow the postcard wire format and the Noise Protocol Framework (sections 3, 5.1 and 7.5).
- Builds without the `crypto` feature.
- HTTP calls, URL parsing, axum responses, configuration builders, error conversions, trait forwarding, logging, server handles.
- UTF-8 decoding of characters split between chunks: the event-stream parser reads decoded text.
- Rounding: delays are exact real numbers of seconds, so f64 and nanosecond rounding, infinities and NaN are not modelled.
- Authentication logic: the payload and the outcome are choices of the environment. Its frames travel like any others.
- The connection loop's network steps (`connect`, `ws.next()`) are choices of the environment and may never come; no liveness is claimed for them.
- The pipe and the correlation interleavings are machines on values, because their steps belong to several tasks; the updates in place are in the classes beside them.
- The client's receive and heartbeat arms: the same code as the server's, apart from `dispatch_frame`, which is modelled, and a cancel arm, which the lifecycle has.
- A heartbeat that comes due while a drain or a send is in progress fires after it (the `Late` event of `Heartbeat`).
- EventStream.StandardIff: is about fields that are one line to the standard too; `id` and `retry` fields, which the client ignores, are read as unknown ones.
- A stream that has refused one packet is taken to refuse all later ones.
- SessionPipe.SessionDelivers: is about a session whose sends and nonces last; what the wire gets of one whose do not is in `SessionRuns.WireIs`.
- A channel that outlives its loop: requests sent after the loop has returned are refused, and their entries stay; `Refused` in the correlation machine.
