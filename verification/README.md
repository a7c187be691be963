# Harapter, modelled and proved in Dafny

Harapter lets a host drive coding agents through one contract: sessions, runs, a stream of numbered events, one
terminal result. This project models the parts of it where messages, timers, host calls and consumers interleave,
and proves what holds over every interleaving. Each synchronous stretch between two awaits is one atomic step.

How the files are laid out. For most components a module holds the specification as functions on a datatype, one
function per kind of step, with an invariant, the lemma that every step keeps it, and the theorems over whole runs;
a class in the same module or the one named after it holds the fields of the component's object, and each of its
methods is proved to take its state to exactly what the specification says.

- `Values.dfy`: result types, decimal numerals, bytes, abstract JSON values, the portable contract.
- `DshProtocol.dfy`, `GatewayLog.dfy`, `GatewayHistory.dfy`, `GatewayRun.dfy`: the DeepSeek Harness session log that
  decides which request owns a turn, its snapshots, and the Gateway run.
- `EventStream.dfy`, `EventStreamReference.dfy`: the incremental server-sent events parser and a whole-stream
  reading after sections 9.2.5 and 9.2.6 of the WHATWG HTML standard, with the code's deviations (fatal invalid
  UTF-8, byte limits, `retry` carried by the dispatched event).
- `Framing.dfy`, `WriteQueue.dfy`, `WireDelivery.dfy`: both stdio transports' line framing and serialized writes, and
  delivery end to end. The JSON-RPC transport counts a trailing CR against the frame limit, the JSONL transport
  allows exactly one extra byte if it is that CR.
- `RequestIds.dfy`, `JsonRpcRequests.dfy`, `ReusedIdentifiers.dfy`, `RequestTransport.dfy`: JSON-RPC requests (sections 4
  and 5 of the JSON-RPC 2.0 specification): cyclic identifiers, correlation, timers, the inbound barrier, termination.
- `Responses.dfy`: answering the remote side's requests, with reservation and abandonment.
- `AcpEvents.dfy`, `AcpBarrier.dfy`, `AcpSessions.dfy`: the Agent Client Protocol client: the barrier that holds a
  prompt's result back until its events are consumed, and prompt slots, cancellation and permission requests.
- `Redaction.dfy`: the bounded view of unknown ACP traffic.
- `PortableTrace.dfy`, `RunEvents.dfy`: the repository's own trace validator as specification, and the event queue
  the adapters share.
- `DshRun.dfy`, `DshRunHistory.dfy`, `DshReplay.dfy`, `DshRunAdapter.dfy`, `SubagentForest.dfy`: the DeepSeek Harness
  stdio run, the replay of what it buffered before the prompt reply, and its live subagents.
- `CodexProtocol.dfy`, `CodexRun.dfy`, `CodexInteractions.dfy`, `CodexRunAdapter.dfy`, `CodexRouting.dfy`: the Codex
  notification mapping, the run, what its trace tells of each interaction, and routing while a turn's name is unknown.
- `HermesRun.dfy`, `HermesRunAdapter.dfy`, `HermesSessions.dfy`: the Hermes run that settles on evidence only, and the
  client's quarantine and branching rules.
- `FakeRun.dfy`: the reference provider.

What the model takes as given: a JSON text and its decoding are an abstract partial function, and so are UTF-8
decoding and digests; encoded messages hold no LF and do not end in CR; a timer, an abort signal, a stream error or
a host call is a step that may come at any moment it is possible. A failed push into an event queue still spends a
sequence number, so numbers increase without being contiguous.

Three laws do not hold without a condition, and each has its exact one.

The JSON-RPC transport knows requests by identifier only, and identifiers are reused cyclically. So three kinds of
steps can act on the wrong request (`JsonRpcRequests.Misleads`): a queued frame is written while its identifier names
another request whose own frame is not out yet; a reply is accepted while the identifier of the frame it answers names
another request, or although it answers no frame; a held reply is released while its identifier names another request.
`JsonRpcRequests.RepliesReachTheirRequest` proves that replies reach the requests whose frames they answer throughout a
run exactly when none of its steps is one of these. Replies and continuations within one cycle of 2^53 - 1 identifiers
suffice if the remote side answers only what it was asked (`JsonRpcRequests.OneCycleSuffices`), but are not necessary;
`ReusedIdentifiers.ReusedIdentifierMisleads` and `ReusedIdentifiers.LateReplyMisleads` give runs in which replies go astray.
That every request settles at most once, and exactly once by termination, needs no condition. The order of a prompt's
result behind its events needs less: it holds unless a held reply overtakes the messages ahead of it by being released
to another waiting request (`AcpBarrier.BarrierHoldsExactly`, `AcpBarrier.PromptResolvesAfterItsEvents`).

The ACP client keeps a second prompt of a session out until the first has ended, unless a successful close of the
session frees the slot of a prompt that has not. `AcpSessions.OnePromptPerSession` proves that a prompt keeps its slot
exactly when no step of the run frees it, and `AcpSessions.FreedAdmitsAnother` that a freed slot always admits a second
prompt; `AcpSessions.CloseAdmitsAnother` gives such a run.

The buffered notices of a DeepSeek Harness run are replayed to the end without asking again whether the run has
settled, and a mapping that throws on the way costs the host the run. Result and events are those of one-by-one
delivery exactly when every buffered event that replay looks into is understood (`DshReplay.ReplayMatchesReceiving`),
and so is the connection exactly when, besides, the notices behind the settling one only go on with the run's own turn
(`DshReplay.ReplayIsReceiving`). `DshReplay.ReplayMayCloseConnection` and `DshReplay.ReplayMayLoseTheRun` give a buffer
for either difference.

## Model

| member | source | states |
|---|---|---|
| `DshProtocol.MappingIsPortable` | providers/dsh/src/protocol.ts:406-656 | Every mapped session event yields only non-terminal portable events; exactly turn ends carry a terminal observation, whose event type agrees with its status and which is failed whenever it is invalid; only splices insert messages. |
| `GatewayLog.GatewaySessionLog.Begin` | providers/dsh/src/gateway-protocol.ts:114-131 | A request takes the log exactly when no turn runs, both inboxes are empty and nobody owns it; otherwise nothing changes. |
| `GatewayLog.GatewaySessionLog.Release` | providers/dsh/src/gateway-protocol.ts:139-141 | Releasing forgets the owner only; position and gathered results stay. |
| `GatewayLog.GatewaySessionLog.AddUsageTotals` | providers/dsh/src/gateway-protocol.ts:325-332 | Usage is added key by key; a key never reported stays absent. |
| `GatewayLog.GatewaySessionLog.Gather` | providers/dsh/src/gateway-protocol.ts:226-232 | The last final message wins and every usage report is added. |
| `GatewayLog.GatewaySessionLog.SpliceInbox` | providers/dsh/src/gateway-protocol.ts:276-323 | A splice is refused exactly when it leaves its inbox, brings or claims a foreign input, claims twice, or breaks uniqueness or the limit of 256 over both inboxes; a refusal leaves the whole log as it was although the claim is recorded before the capacity check. |
| `GatewayLog.RemovalFits` | providers/dsh/src/gateway-protocol.ts:312-321 | Taking inputs out of one inbox can never break uniqueness or the limit of both together, which is why a recorded claim is never followed by a refusal. |
| `GatewayLog.FitMeansWithinCapacity` | providers/dsh/src/gateway-protocol.ts:313-321 | The size comparison with a set of identifiers means: at most 256 inputs over both inboxes, all identifiers different, in either order of the two. |
| `GatewayLog.MovedKeepsInv` | providers/dsh/src/gateway-protocol.ts:155-273 | Every accepted event keeps the position sound: a step only inside a turn, turns numbered upwards, inboxes unique and within 256. |
| `GatewayLog.GatewaySessionLog.StartTurn` | providers/dsh/src/gateway-protocol.ts:167-172 | A turn starts exactly when it is numbered above every earlier one and none is running. |
| `GatewayLog.GatewaySessionLog.AcceptStep` | providers/dsh/src/gateway-protocol.ts:173-188 | Steps open and close only within the current turn and one at a time; a refusal changes nothing. |
| `GatewayLog.GatewaySessionLog.AcceptUserMessage` | providers/dsh/src/gateway-protocol.ts:189-208 | While owned, a user message other than the system prompt is accepted exactly once, for the claimed input, in the claimed turn, inside a step, and correlates the request. |
| `GatewayLog.GatewaySessionLog.AcceptOutput` | providers/dsh/src/gateway-protocol.ts:209-234 | Output is accepted only inside the current turn and step, while owned only after correlation, and then handed on and gathered. |
| `GatewayLog.GatewaySessionLog.EndTurn` | providers/dsh/src/gateway-protocol.ts:235-261 | A turn ends only outside a step with a valid reason; while owned it needs a claim in this turn (not correlation) and fixes the result. |
| `GatewayLog.GatewaySessionLog.Accept` | providers/dsh/src/gateway-protocol.ts:143-274 | An event is accepted exactly when the specification accepts it, moves the log to the specified state and returns the specified output; a rejected one leaves the whole log unchanged, and a run conflict is reported only while owned. |
| `GatewayHistory.ReplayEqualsLive` | providers/dsh/src/gateway-protocol.ts:122-323 | For every interleaving of begin, events and release, a fresh unowned log fed the accepted events reaches the live cursor, turn, step, last turn and inboxes, and the cursor counts them. |
| `GatewayHistory.ReplayRecords` | providers/dsh/src/gateway-protocol.ts:369-375 | Replaying succeeds exactly when every record is an event record a fresh log accepts in turn, and gives that log. |
| `GatewayHistory.ParseGatewaySnapshot` | providers/dsh/src/gateway-protocol.ts:335-378 | A snapshot opens exactly when its envelope is valid, it is no subagent and complete, and its records replay to the stated cursor; the log is then the replayed, unowned one. |
| `GatewayHistory.SnapshotRebuildsLive` | providers/dsh/src/gateway-protocol.ts:335-378 | A snapshot recording what a live log accepted rebuilds that log's position, whoever owned it. |
| `GatewayHistory.RequestLife` | providers/dsh/src/gateway-protocol.ts:122-261 | While one request owns the log: at most one turn starts, one claim, one correlation, one end; a claimed unfinished run is in its claimed turn; all queued inputs are the request's; a result exists exactly when a turn end was accepted and carries the last message and the per-key usage sums since begin. |
| `GatewayHistory.OutputFollowsCorrelation` | providers/dsh/src/gateway-protocol.ts:209-217 | Before a claimed message is correlated, the run is handed nothing but opaque provider observations. |
| `GatewayRun.GatewayQueue.Push` | providers/dsh/src/gateway-queue.ts:14-20 | A push is taken exactly when the queue has not ended and has room, the last slot being kept for a terminal event. |
| `GatewayRun.GatewayQueue.Take` | providers/dsh/src/gateway-queue.ts:43-47 | The consumer gets events in the order they were pushed. |
| `GatewayRun.FinishTrace` | providers/dsh/src/gateway-run.ts:85-107 | The kept slot always holds the terminal event, which closes a valid trace. |
| `GatewayRun.DshGatewayRun.Receive` | providers/dsh/src/gateway-run.ts:60-71 | Events are queued in order under increasing numbers until the first without room, which aborts the connection; a terminal observation settles the run only if the prompt was admitted. |
| `GatewayRun.DshGatewayRun.Acknowledge` | providers/dsh/src/gateway-run.ts:55-58 | Admission settles the run with a terminal observation that came earlier. |
| `GatewayRun.DshGatewayRun.FinishRun` | providers/dsh/src/gateway-run.ts:85-107 | The first settlement stands: result, one terminal event, queue ended. |
| `GatewayRun.StepKeeps` | providers/dsh/src/gateway-run.ts:28-107 | Every step keeps the trace live or valid and the authority rule. |
| `GatewayRun.SettledRun` | providers/dsh/src/gateway-run.ts:28-107 | Over every interleaving a settled run has a valid, complete trace agreeing with its result; it is completed or cancelled only if admitted and by its own terminal observation; admission plus observation always settles. |
| `EventStream.SseParser.ConsumeLine` | packages/transport-http-sse/src/index.ts:623-685 | One line is decoded, stripped of a leading byte order mark if first, and either dispatches the pending event, sets a field, is a comment, or fails by encoding or size, exactly as the line reading specifies. |
| `EventStream.SseParser.Break` | packages/transport-http-sse/src/index.ts:719-730 | A line break completes the open line: too long, unreadable, or read with its event yielded and a following LF skipped after CR. |
| `EventStream.SseParser.ConsumeChunk` | packages/transport-http-sse/src/index.ts:705-739 | A chunk of any legal size leaves the parser where a byte-by-byte pass leads, also in the middle of CRLF. |
| `EventStream.SseParser.End` | packages/transport-http-sse/src/index.ts:696-701 | At the end an unterminated line is still checked but dispatches nothing. |
| `EventStreamReference.ParseSse` | packages/transport-http-sse/src/index.ts:608-741 | The loop over chunks yields the events, then the ending, of the specified outcome, including a failed read. |
| `EventStreamReference.ChunkingIsInvisible` | packages/transport-http-sse/src/index.ts:687-740 | Two ways of cutting one byte stream into legal chunks give the same events and the same ending or failure. |
| `EventStreamReference.AcceptedStreamsMatchReference` | packages/transport-http-sse/src/index.ts:608-741 | On every accepted stream the events are those of a whole-stream reading: split at CRLF, CR or LF, decode, interpret the fields of each block closed by an empty line. |
| `Bytes.Concatenate` | packages/transport-http-sse/src/index.ts:987-996 | The buffered pieces are copied into one line in order. |
| `Framing.FrameReader.AppendLineSegment` | packages/transport-jsonl-process/src/index.ts:530-547 | A segment is taken exactly when the line stays admissible: within the limit, or in JSONL one byte over it if that byte is CR. |
| `Framing.FrameReader.ConsumeLine` | packages/transport-jsonl-process/src/index.ts:549-593 | A complete line loses one trailing CR, is decoded, and is delivered to a waiting reader, queued, or fails. |
| `Framing.FrameReader.ConsumeChunk` | packages/transport-jsonrpc-stdio/src/index.ts:713-724 | Whatever segments a chunk cuts lines into, the reader ends where its bytes alone lead. |
| `Framing.FrameReader.Next` | packages/transport-jsonrpc-stdio/src/index.ts:181-197 | A read takes the oldest queued message or waits. |
| `Framing.FeedSegment` | packages/transport-jsonl-process/src/index.ts:530-547 | Checking a whole segment at once accepts the same lines as checking byte by byte. |
| `WireDelivery.ChunkingIsInvisible` | packages/transport-jsonl-process/src/index.ts:517-547 | Acceptance of lines and the messages received depend on the bytes only, never on chunk or read boundaries; only a full inbound queue makes a difference, and then the messages received are a proper prefix of those in the bytes. |
| `WireDelivery.DecodedFramesFit` | packages/transport-jsonrpc-stdio/src/index.ts:726-746 | Under either rule what reaches the decoder never exceeds the frame limit. |
| `WriteQueue.FrameWriter.Send` | packages/transport-jsonl-process/src/index.ts:272-296 | A message enters the queue exactly when the transport is open, the queue has room and the message encodes within the limit. |
| `WriteQueue.FrameWriter.Turn` | packages/transport-jsonl-process/src/index.ts:426-446 | A turn writes the next frame only if its wait is still open; a refusing stream closes the transport. |
| `WriteQueue.FrameWriter.Expire` | packages/transport-jsonl-process/src/index.ts:391-424 | An abort or timeout ends one wait, once, and touches no frame. |
| `WriteQueue.FrameWriter.Flush` | packages/transport-jsonl-process/src/index.ts:432-444 | A flushed frame resolves its own wait and frees its place. |
| `WriteQueue.FrameWriter.Terminate` | packages/transport-jsonl-process/src/index.ts:609-628 | Closing rejects every open wait and the frame in flight. |
| `WriteQueue.StepKeepsInv` | packages/transport-jsonl-process/src/index.ts:384-515 | Every step keeps the count of pending writes, resolves only written frames and leaves no wait open once closed. |
| `WriteQueue.StepKeepsWire` | packages/transport-jsonl-process/src/index.ts:384-491 | At every moment the wire is exactly the frames of the written messages in send order. |
| `WriteQueue.AbortedNeverWritten` | packages/transport-jsonl-process/src/index.ts:426-431 | A send whose wait ended before its turn never reaches the wire, in any continuation. |
| `WriteQueue.ClosedIsFinal` | packages/transport-jsonl-process/src/index.ts:609-628 | Once closed no further byte is written and no wait stays open. |
| `WireDelivery.WireDelivers` | packages/transport-jsonl-process/src/index.ts:353-593 | End to end, for every interleaving of sends and every chunking: the receiver takes in a prefix of the messages whose write was started, in send order, fails only by a full queue, and has exactly those messages once the wire has arrived. |
| `RequestIds.CyclesApart` | packages/transport-jsonrpc-stdio/src/index.ts:962-963 | An identifier comes round again only a whole cycle of 2^53 - 1 probes later. |
| `RequestIds.SomeProbeIsFree` | packages/transport-jsonrpc-stdio/src/index.ts:958-970 | Among pending count plus one consecutive probes, across the wraparound too, one finds an identifier not in use. |
| `RequestIds.Allocator.AllocateRequestId` | packages/transport-jsonrpc-stdio/src/index.ts:958-970 | With fewer pending requests than identifiers the allocator returns the first free one in cyclic order within pending count plus one probes and never gives up. |
| `RequestTransport.Transport.RequestInternal` | packages/transport-jsonrpc-stdio/src/index.ts:372-454 | A request is refused when closed or at the limit; otherwise an unused identifier is spent, and the request registered and queued, or its write failure recorded, unless it does not encode. |
| `RequestTransport.Transport.SettlePending` | packages/transport-jsonrpc-stdio/src/index.ts:931-949 | Settling acts on whatever request the identifier names now, once, and releases its barrier waiter. |
| `RequestTransport.Transport.TakeTurn` | packages/transport-jsonrpc-stdio/src/index.ts:664-668 | A queued frame goes out only while its identifier is pending, marking that request started. |
| `RequestTransport.Transport.ConsumeResponse` | packages/transport-jsonrpc-stdio/src/index.ts:866-897 | A reply counts only for a started, unanswered request; it settles at once, or waits for the messages ahead of it. |
| `RequestTransport.Transport.AcknowledgeInbound` | packages/transport-jsonrpc-stdio/src/index.ts:910-917 | Acknowledging a message releases exactly the waiters whose target is reached. |
| `RequestTransport.Transport.EnqueueInbound` | packages/transport-jsonrpc-stdio/src/index.ts:899-908 | An inbound message is numbered even when the buffer refuses it, which closes the transport. |
| `RequestTransport.Transport.Fail` | packages/transport-jsonrpc-stdio/src/index.ts:989-1022 | Closing rejects every waiter, every pending request and the frame being flushed, in whatever order they are visited. |
| `RequestTransport.Transport.ResumeBarrier` | packages/transport-jsonrpc-stdio/src/index.ts:887-896 | A released waiter settles its request with the held reply, a broken one with a failure. |
| `RequestTransport.Transport.ReportFailure` | packages/transport-jsonrpc-stdio/src/index.ts:444-450 | A failed write settles the request under that identifier if it is still pending. |
| `JsonRpcRequests.StepKeeps` | packages/transport-jsonrpc-stdio/src/index.ts:372-1022 | Every step keeps: pending identifiers are exactly those of unsettled requests, no request is settled twice, waiters wait only for unacknowledged messages, and nothing is pending once closed. |
| `JsonRpcRequests.SettlesOnce` | packages/transport-jsonrpc-stdio/src/index.ts:931-949 | Over every run a request is settled at most once and for good, and is unsettled exactly while pending under its own identifier. |
| `JsonRpcRequests.TerminationSettlesAll` | packages/transport-jsonrpc-stdio/src/index.ts:994-1022 | After termination, in any continuation, every request has been settled exactly once, nothing is pending and no barrier waits. |
| `JsonRpcRequests.StaleNeedsFullCycle` | packages/transport-jsonrpc-stdio/src/index.ts:931-956 | A continuation that knows its request only by identifier can find another request there only if a whole cycle of identifiers was allocated since. |
| `JsonRpcRequests.StepOwn` | packages/transport-jsonrpc-stdio/src/index.ts:866-949 | While every reply has reached the request whose frame it answers, a step keeps it so exactly when it is not a misleading one: a queued frame written while its identifier names another request not yet written, a reply accepted while the identifier of the frame it answers names another request or although it answers no frame, a held reply released while its identifier names another request. |
| `JsonRpcRequests.RepliesReachTheirRequest` | packages/transport-jsonrpc-stdio/src/index.ts:372-956 | Over every run, at every moment each answered request was answered by the reply to its own frame, after that frame was written and, if asked, after every message ahead of the reply was acknowledged, exactly when no step of the run was a misleading one. |
| `JsonRpcRequests.StepOrdered` | packages/transport-jsonrpc-stdio/src/index.ts:876-929 | While no waiting request was answered ahead of unacknowledged messages, a step keeps it so exactly when it does not release a held reply, whose messages are unacknowledged, to another waiting request under its identifier. |
| `JsonRpcRequests.OneCycleSuffices` | packages/transport-jsonrpc-stdio/src/index.ts:958-970 | A run has no misleading step if replies and continuations come before 2^53 - 1 further identifiers were allocated and no reply to nothing matches a waiting request. |
| `ReusedIdentifiers.ReusedIdentifierMisleads` | packages/transport-jsonrpc-stdio/src/index.ts:426-449 | A concrete run of 2^53 requests that misleads: the frame of the first, expired request is written for the newest one, which the reply to it then settles although its own frame was never written. |
| `ReusedIdentifiers.LateReplyMisleads` | packages/transport-jsonrpc-stdio/src/index.ts:866-884 | A second one, in which every frame written is its request's own: the reply to the first, expired request comes after every identifier has been used and settles the newest request. |
| `Responses.InboundRequests.ConsumeRequest` | packages/transport-jsonrpc-stdio/src/index.ts:817-838 | A request under a pending identifier, one too many, or one without buffer room closes the transport; any other becomes pending. |
| `Responses.InboundRequests.AbandonInboundRequest` | packages/transport-jsonrpc-stdio/src/index.ts:517-527 | A pending request is forgotten at once, or marked when a response is on its way. |
| `Responses.InboundRequests.RespondWithEnvelope` | packages/transport-jsonrpc-stdio/src/index.ts:559-615 | A response is reserved exactly when the request is pending and unreserved; one that does not encode gives the reservation up, honouring an abandonment made meanwhile. |
| `Responses.InboundRequests.Conclude` | packages/transport-jsonrpc-stdio/src/index.ts:591-604 | A flushed response releases the request; a failed one only its reservation, unless it was abandoned. |
| `Responses.InboundRequests.Terminate` | packages/transport-jsonrpc-stdio/src/index.ts:994-1006 | Closing clears all three identifier sets. |
| `Responses.StepKeeps` | packages/transport-jsonrpc-stdio/src/index.ts:517-615 | Abandoning identifiers stay among responding ones, those among pending ones, each reserved identifier has exactly one write under way, and no request has two response frames. |
| `Responses.RetiredForGood` | packages/transport-jsonrpc-stdio/src/index.ts:559-615 | An answered or abandoned request never gets another frame, not even when the remote side uses its identifier again. |
| `Responses.AbandonedNeverAnswered` | packages/transport-jsonrpc-stdio/src/index.ts:517-527 | A request abandoned while nobody responds never gets a response frame. |
| `Responses.RaceOutcome` | packages/transport-jsonrpc-stdio/src/index.ts:591-604 | When a response write ends, the request stays pending and answerable exactly if nothing was flushed and nobody abandoned it; a failed write on an open transport never reached the stream. |
| `AcpEvents.EventQueue.Push` | packages/transport-acp/src/client.ts:96-108 | A push into a full queue spends a sequence number, one into a closed queue does not; a waiting consumer gets the event directly. |
| `AcpEvents.EventQueue.Acknowledge` | packages/transport-acp/src/client.ts:151-158 | Acknowledging a sequence number resolves exactly the waits at or below it. |
| `AcpEvents.EventQueue.WaitForAcknowledgement` | packages/transport-acp/src/client.ts:160-231 | A wait succeeds at once if all is acknowledged, fails if late, closed, aborted or over the limit, and else waits for everything pushed so far. |
| `AcpEvents.EventQueue.Pull` | packages/transport-acp/src/client.ts:794-801 | Coming back for the next event acknowledges the last one. |
| `AcpEvents.EventQueue.Close` | packages/transport-acp/src/client.ts:130-145 | Closing drops queued events and rejects every wait. |
| `AcpEvents.GoodOutcome` | packages/transport-acp/src/client.ts:147-231 | A wait ends well only when every event offered before it began has been finished by the consumer. |
| `AcpBarrier.StepKeepsAll` | packages/transport-acp/src/client.ts:466-801 | Every step of transport, dispatch loop, event queue and prompts keeps, except exactly one that lets a held reply overtake: an answered prompt's preceding messages were handled with the queue open, and waiting prompts wait at least for their events. |
| `AcpBarrier.BarrierHoldsExactly` | packages/transport-acp/src/client.ts:466-801 | Over every run both layers of the barrier are sound at every moment exactly when no held reply overtakes the messages ahead of it. |
| `AcpBarrier.PromptResolvesAfterItsEvents` | packages/transport-acp/src/client.ts:466-523 | With the event stream claimed and no overtaking, a prompt resolves only after the consumer finished, in order, every event whose message preceded its reply on the wire, through both barriers. |
| `AcpBarrier.PromptGetsItsOwnReply` | packages/transport-acp/src/client.ts:466-523 | Without a misleading transport step the reply that resolves a prompt is moreover the one to its own frame, which was written before. |
| `AcpSessions.AcpClient.BeginPrompt` | packages/transport-acp/src/client.ts:472-484 | A prompt takes its session's slot with a fresh token exactly when nothing occupies, cancels or closes the session. |
| `AcpSessions.AcpClient.EndPrompt` | packages/transport-acp/src/client.ts:515-522 | A prompt given up locally keeps its slot; any other frees it only if the token is its own, and clears a mark nobody needs. |
| `AcpSessions.AcpClient.SettleSessionPermissions` | packages/transport-acp/src/client.ts:847-859 | Every permission waiting for the session, and no other, is answered cancelled and forgotten. |
| `AcpSessions.AcpClient.BeginCancel` | packages/transport-acp/src/client.ts:529-536 | Cancelling marks the session, counts the operation and settles its permissions. |
| `AcpSessions.AcpClient.EndCancel` | packages/transport-acp/src/client.ts:537-539 | The end of a cancellation is counted and clears a mark nobody needs. |
| `AcpSessions.AcpClient.BeginClose` | packages/transport-acp/src/client.ts:442-448 | A session closes at most once at a time, settling its permissions first. |
| `AcpSessions.AcpClient.EndClose` | packages/transport-acp/src/client.ts:449-463 | A successful close frees the slot; a local timeout keeps the session marked closing. |
| `AcpSessions.AcpClient.HandlePermissionRequest` | packages/transport-acp/src/client.ts:671-698 | A permission request for a session being cancelled or closed is answered cancelled, one without a handler refused, any other waits. |
| `AcpSessions.AcpClient.FinishHandler` | packages/transport-acp/src/client.ts:705-731 | A handler's outcome is sent only if the request was not settled meanwhile. |
| `AcpSessions.AcpClient.Fail` | packages/transport-acp/src/client.ts:786-792 | A failure drops waiting permissions without an answer. |
| `AcpSessions.AcpClient.Close` | packages/transport-acp/src/client.ts:594-606 | Closing forgets every slot and mark. |
| `AcpSessions.StepKeeps` | packages/transport-acp/src/client.ts:431-897 | Every step keeps: slots name unfinished prompts of their session, the count of cancellations is the number in flight, those sessions are marked, marked ones have a prompt or a cancellation, and no permission waits for a session being cancelled or closed. |
| `AcpSessions.EndingFreesOnlyItself` | packages/transport-acp/src/client.ts:515-522 | A finishing prompt never frees a later prompt's slot. |
| `AcpSessions.StepHolds` | packages/transport-acp/src/client.ts:431-523 | A prompt that has not ended keeps its session's slot through a step exactly when the step is not the successful close of the session with the client open. |
| `AcpSessions.OnePromptPerSession` | packages/transport-acp/src/client.ts:466-523 | From the start, over every interleaving: a started prompt keeps its slot at every later moment exactly when no step frees it, and then no other prompt of its session starts until it has ended, given up locally or not. |
| `AcpSessions.FreedCanPrompt` | packages/transport-acp/src/client.ts:449-450 | After a freeing close the session can be prompted again at once exactly when no cancellation of it is counted. |
| `AcpSessions.FreedAdmitsAnother` | packages/transport-acp/src/client.ts:449-484 | A freed slot always admits a second prompt: some continuation starts one while the first has not ended. |
| `AcpSessions.CloseAdmitsAnother` | packages/transport-acp/src/client.ts:431-464 | A successful close does let a second prompt start while the first has not ended. |
| `AcpSessions.CancellingAnswersItsOwn` | packages/transport-acp/src/client.ts:529-541 | Cancelling answers exactly the session's waiting permissions as cancelled and leaves all others alone. |
| `AcpSessions.NothingWaitsForCancelled` | packages/transport-acp/src/client.ts:660-733 | Over every run no permission request waits for a session being cancelled or closed: it was answered when that began, or on arrival. |
| `AcpSessions.OneAnswerEach` | packages/transport-acp/src/client.ts:660-733 | Over every run each permission request gets at most one answer. |
| `Redaction.Redact` | packages/transport-acp/src/validation.ts:1574-1601 | The recursive method with its shared counter computes the specified view and count. |
| `Redaction.RedactRecord` | packages/transport-acp/src/validation.ts:1601-1614 | The loop over entries builds the specified object, marker included. |
| `Redaction.VisitBound` | packages/transport-acp/src/validation.ts:1574-1615 | A visit begun at any depth leaves the shared counter at most at that depth's ceiling. |
| `Redaction.VisitsBounded` | packages/transport-acp/src/validation.ts:388-398 | Redacting any value visits at most 125 nodes, within 64 + 4 * 16. |
| `Redaction.SafeKeysApart` | packages/transport-acp/src/validation.ts:1606-1608 | Two entries of one object are never published under one key, nor under the marker's. |
| `Redaction.ObjectView` | packages/transport-acp/src/validation.ts:1601-1614 | The view of an object is its first sixteen entries one for one under distinct names, plus the marker exactly when something was cut. |
| `Redaction.ViewIsPublic` | packages/transport-acp/src/validation.ts:1574-1626 | The view holds nothing but null, fixed vocabulary and digests, at most four levels deep and seventeen wide. |
| `PortableTrace.ValidatePortableRunTrace` | packages/conformance/src/suite.ts:33-73 | The validator accepts exactly the traces with distinct identifiers, increasing sequence numbers and exactly one terminal event, last and agreeing with the result. |
| `PortableTrace.DistinctCount` | packages/conformance/src/suite.ts:40-42 | A sequence has as many different elements as it is long exactly when none repeats. |
| `PortableTrace.NeighboursIncrease` | packages/conformance/src/suite.ts:43-53 | Comparing neighbours decides whether the whole trace increases. |
| `PortableTrace.LiveTraceGrows` | providers/dsh/src/adapter.ts:936-943 | An event stamped with the next number keeps a run's trace live, also after numbers were lost. |
| `PortableTrace.LiveTraceEnds` | providers/dsh/src/adapter.ts:925-953 | Closing a live trace with the terminal event of its status makes it valid. |
| `Decimals.DecimalInjective` | providers/dsh/src/adapter.ts:938-939 | Different sequence numbers print differently, so identifiers built from them differ. |
| `RunEvents.EventQueue.Push` | providers/dsh/src/adapter.ts:968-979 | A waiting consumer gets the event directly; otherwise it is queued unless only the terminal slot is left. |
| `RunEvents.EventQueue.PushTerminal` | providers/dsh/src/adapter.ts:981-989 | A terminal event always fits. |
| `RunEvents.EventQueue.Drain` | providers/dsh/src/adapter.ts:1018-1036 | A consumer that reads a closed queue to its end has seen everything accepted, in order. |
| `RunEvents.EmittedKeeps` | providers/dsh/src/adapter.ts:886-895 | Emitting keeps a run's outgoing trace live, whether or not the queue took the event. |
| `RunEvents.FinishedKeeps` | providers/dsh/src/adapter.ts:925-934 | Settling with the event type its status calls for makes the trace valid and closes the queue. |
| `RunEvents.CollectSettled` | packages/conformance/src/suite.ts:33-73 | A host that reads a settled run's queue to the end and runs the validator finds no flaw. |
| `DshRunAdapter.AdapterRun.Process` | providers/dsh/src/adapter.ts:821-884 | Raw, status and session notices have exactly the specified effect; a mapping that throws changes nothing. |
| `DshRunAdapter.AdapterRun.CorrelateEvent` | providers/dsh/src/adapter.ts:844-866 | Before correlation only a splice naming the run's message matters; one inserting anything else with it fails the run. |
| `DshRunAdapter.AdapterRun.FollowEvent` | providers/dsh/src/adapter.ts:833-883 | After correlation a gap or another insertion fails the run and closes the client; turn ends are counted, the first kept. |
| `DshRunAdapter.AdapterRun.FinishAtIdleStatus` | providers/dsh/src/adapter.ts:897-923 | At idle the run settles on its one turn end, completed by message and usage, or fails for none or several. |
| `DshRunAdapter.AdapterRun.EmitEvent` | providers/dsh/src/adapter.ts:886-895 | Every event is numbered; one the queue refuses aborts the connection. |
| `DshRunAdapter.AdapterRun.AbortOwnerConnection` | providers/dsh/src/adapter.ts:552-558 | The client closes once and aborts the run it still owns. |
| `DshRunAdapter.AdapterRun.Receive` | providers/dsh/src/adapter.ts:784-795 | Notices are buffered until the prompt reply, with room for all but one of the capacity, then processed; a throwing mapping fails the run and closes the client. |
| `DshRunAdapter.AdapterRun.Acknowledge` | providers/dsh/src/adapter.ts:777-782 | The reply replays the buffer to its end, settled on the way or not; a throwing mapping discards the run in the state the replay had reached. |
| `DshRun.EndsAgree` | providers/dsh/src/protocol.ts:647-700 | Every turn end read from a session agrees with the event type it settles a run with. |
| `DshRun.NextFollows` | providers/dsh/src/adapter.ts:833-883 | A gap-free event without insertion extends the run's own turn, and its turn end is counted. |
| `DshRunHistory.StepKeeps` | providers/dsh/src/adapter.ts:777-934 | Every step keeps the trace live or valid and the run's fields a faithful summary of the notices since its own splice. |
| `DshRunHistory.CompletedOnlyAfterOwnTurn` | providers/dsh/src/adapter.ts:821-923 | A run reports completed only if its history holds a splice inserting exactly its own message, then gap-free events with no other insertion and exactly one turn end, completed, then idle. |
| `DshRunHistory.IdleDecides` | providers/dsh/src/adapter.ts:897-923 | At idle a correlated run completes exactly when one turn end was seen and it was completed. |
| `DshRunHistory.SettledTraceIsValid` | providers/dsh/src/adapter.ts:886-953 | A settled run's trace is valid and agrees with its result, overflow or not. |
| `DshReplay.ReplayMatchesReceiving` | providers/dsh/src/adapter.ts:777-795 | Replaying the buffer gives the host the run with the result and events of one-by-one delivery exactly when every buffered event that replay looks into is understood; otherwise the run is discarded and the connection closed. |
| `DshReplay.ConnectionSurvives` | providers/dsh/src/adapter.ts:777-884 | What is replayed behind the notice that settled a run neither throws nor closes the connection exactly when its events are gap-free, understood and insert nothing. |
| `DshReplay.ReplayIsReceiving` | providers/dsh/src/adapter.ts:777-795 | Replay equals one-by-one delivery in result, events and connection exactly when every event looked into is understood and, once the run has settled with the connection open, the rest of the buffer only goes on with its turn. |
| `DshReplay.ReplayMayCloseConnection` | providers/dsh/src/adapter.ts:777-782 | A literal buffer: an event out of sequence behind the idle that settled the run closes the connection when replayed and is ignored when received. |
| `DshReplay.ReplayMayLoseTheRun` | providers/dsh/src/adapter.ts:365-384 | A literal buffer: a malformed splice in sequence behind that idle costs the host the completed run when replayed and is ignored when received. |
| `SubagentForest.Subagents.RegisterChild` | providers/dsh/src/adapter.ts:741-753 | A child is registered exactly when its parent is known and it is not; the forest is kept. |
| `SubagentForest.Subagents.FinishChild` | providers/dsh/src/adapter.ts:755-775 | A completion naming the right parent removes exactly the child and its descendants by sweeping until nothing changes, which terminates. |
| `SubagentForest.Subagents.Sweep` | providers/dsh/src/adapter.ts:764-772 | A sweep marks only descendants, and one that marks nothing has found them all. |
| `SubagentForest.FinishedForest` | providers/dsh/src/adapter.ts:755-775 | What remains is a forest under the same root, holds exactly the children outside the subtree, and all of them still hang below the root. |
| `SubagentForest.AllUnderRoot` | providers/dsh/src/adapter.ts:741-753 | Every live subagent descends from the run's session. |
| `SubagentForest.ChildUnder` | providers/dsh/src/adapter.ts:764-772 | A child descends from another exactly when it is that one or its parent does. |
| `SubagentForest.MarkedAreUnder` | providers/dsh/src/adapter.ts:762-774 | A marked set closed under children that holds only descendants holds all of them. |
| `CodexRunAdapter.AdapterRun.EmitOne` | providers/codex/src/adapter.ts:922-949 | A mapped event is emitted, or settles the run with the merged result; nothing follows settlement. |
| `CodexRunAdapter.AdapterRun.FinishRun` | providers/codex/src/adapter.ts:989-1004 | The first settlement stands, answers the start signal and makes the client forget the run and its pending interactions. |
| `CodexRunAdapter.AdapterRun.AbortOwnerConnection` | providers/codex/src/adapter.ts:747-757 | The client closes once, announces pending interactions as far as there is room, and aborts the run it lists. |
| `CodexRunAdapter.AdapterRun.SettlePending` | providers/codex/src/adapter.ts:696-716 | An interaction is resolved only while pending. |
| `CodexRunAdapter.AdapterRun.HandleNotification` | providers/codex/src/adapter.ts:594-631 | A notification is mapped; one that ends the turn resolves what is pending before its events are emitted in order. |
| `CodexRunAdapter.AdapterRun.HandleRequest` | providers/codex/src/adapter.ts:578-587 | A request of a listed run becomes a pending interaction and is announced. |
| `CodexRunAdapter.AdapterRun.FinishInterrupt` | providers/codex/src/adapter.ts:965-978 | A failed interrupt counts as an abort if the run was aborted meanwhile, and closes the client if a timeout asked for it. |
| `CodexRunAdapter.AdapterRun.ConcludeCancel` | providers/codex/src/adapter.ts:979-984 | A cancellation is native only if interrupted and settled cancelled. |
| `CodexProtocol.MappingIsPortable` | providers/codex/src/protocol.ts:298-390 | Every notification maps to portable events of which at most the last settles the run, with the event type of its result; one does exactly for the end of a complete turn. |
| `CodexRun.StepKeeps` | providers/codex/src/adapter.ts:852-1024 | Every step keeps the trace live or valid, each interaction pending or resolved, and cancellation verdicts that cannot change. |
| `CodexInteractions.StepSpoken` | providers/codex/src/adapter.ts:689-716 | Every step keeps the interaction events of the trace in step with the interactions: at most one request and one resolution each, and all of them told as long as no event was lost. |
| `CodexInteractions.SettledRun` | providers/codex/src/adapter.ts:852-1024 | Over every interleaving, also when the client closed before the run was there, a settled run has a valid trace agreeing with its result, with at most one requested and one resolved event per interaction and, unless an event was lost to overflow, exactly one of each, the request first; cancel reports native only for a cancelled run and aborted exactly for an aborted one. |
| `CodexRouting.CodexRouter.PumpNext` | providers/codex/src/adapter.ts:549-658 | The pump routes the next message, or suspends while the thread it names has a start pending. |
| `CodexRouting.CodexRouter.ResumePump` | providers/codex/src/adapter.ts:652-657 | Once the start is decided the suspended message is routed once more, for good. |
| `CodexRouting.RouteFinds` | providers/codex/src/adapter.ts:633-646 | While runs are registered as the client keeps them: a message goes to a run only if that run is active and the message names its turn and no other thread, and does so whenever it names the thread and turn of an active run. |
| `CodexRouting.CodexRouter.BeginStart` | providers/codex/src/adapter.ts:438-458 | A start begins exactly when the thread has neither an active nor a starting run. |
| `CodexRouting.CodexRouter.ReplyStart` | providers/codex/src/adapter.ts:459-502 | A turn seen before closes the client; otherwise the run is registered before anyone waiting goes on. |
| `CodexRouting.CodexRouter.OnRunTerminal` | providers/codex/src/adapter.ts:678-687 | A settled run is forgotten unless its thread or turn stands for another one. |
| `CodexRouting.CodexRouter.Abort` | providers/codex/src/adapter.ts:747-757 | Closing settles every active run. |
| `CodexRouting.StepKeeps` | providers/codex/src/adapter.ts:438-687 | Every step keeps: active runs are registered under their turn and thread, messages of a starting thread are held back, and runs got exactly their own messages. |
| `CodexRouting.EarlyEventsReachTheirRun` | providers/codex/src/adapter.ts:438-658 | Every message naming a run's thread and turn that arrived after its start was requested and was handled before it settled reached that run, even ahead of the reply naming the turn; what a run got is in wire order and never names another turn or thread. |
| `HermesRunAdapter.AdapterRun.HandleEvent` | providers/hermes/src/adapter.ts:1126-1155 | After terminal evidence any event of the run itself fails it; a run settled otherwise than completed stops reading. |
| `HermesRunAdapter.AdapterRun.HandleTerminalSignal` | providers/hermes/src/adapter.ts:1178-1187 | The first terminal event starts polling for it; a second fails the run. |
| `HermesRunAdapter.AdapterRun.HandleStatus` | providers/hermes/src/adapter.ts:1202-1239 | A status reply is believed only for this run and session; a final one must agree with the terminal event seen. |
| `HermesRunAdapter.AdapterRun.PassGates` | providers/hermes/src/adapter.ts:1240-1261 | Message and usage are reported once no approval reply is in flight. |
| `HermesRunAdapter.AdapterRun.SettleRun` | providers/hermes/src/adapter.ts:1262-1268 | The run settles on the report only while no approval reply is in flight and nothing settled it before. |
| `HermesRunAdapter.AdapterRun.FinishRun` | providers/hermes/src/adapter.ts:1324-1332 | An open approval is announced resolved before the one terminal event. |
| `HermesRunAdapter.AdapterRun.GiveUpWith` | providers/hermes/src/adapter.ts:1088-1100 | Giving up on the provider quarantines the session and settles the run, once. |
| `HermesRunAdapter.AdapterRun.HandleApprovalRequest` | providers/hermes/src/adapter.ts:712-740 | A second approval while one is open, or one without advertised support, fails the run. |
| `HermesRunAdapter.AdapterRun.HandleApprovalResolved` | providers/hermes/src/adapter.ts:741-759 | A provider resolution must match the open approval or the reply already confirmed. |
| `HermesRunAdapter.AdapterRun.BeginRespond` | providers/hermes/src/adapter.ts:626-648 | A reply starts only for an open, unclaimed approval of an unsettled run and an offered choice. |
| `HermesRunAdapter.AdapterRun.EndRespond` | providers/hermes/src/adapter.ts:649-700 | An accepted reply must not contradict the provider, an uncertain one quarantines and aborts, a refused one frees the approval; the gate opens in every case. |
| `HermesRun.StepKeeps` | providers/hermes/src/adapter.ts:965-1357 | Every step keeps: polling knows the terminal event seen, reports acted on are the run's own, and a settled run is justified by such a report or quarantined its session. |
| `HermesRun.SettlesOnEvidence` | providers/hermes/src/adapter.ts:1126-1272 | A run settles completed or cancelled only on a status reply for its own run and session that says so, agreeing with the one terminal event seen if any, with no approval reply in flight; any other settlement, every abort included, quarantines the session. |
| `HermesRun.SettledTraceIsValid` | providers/hermes/src/adapter.ts:1069-1093 | A settled run's trace is valid, overflow included. |
| `HermesRun.SafeStaysSafe` | providers/hermes/src/adapter.ts:830-834 | A run that settled without quarantining its session never does so later. |
| `HermesRun.ResultStays` | providers/hermes/src/adapter.ts:1324-1332 | Settlement and quarantine are final. |
| `HermesSessions.HermesClient.BeginStart` | providers/hermes/src/adapter.ts:508-542 | A start takes a reusable session with no active or starting run. |
| `HermesSessions.HermesClient.FailStart` | providers/hermes/src/adapter.ts:573-591 | A failed start quarantines the session unless the provider certainly refused it. |
| `HermesSessions.HermesClient.SucceedStart` | providers/hermes/src/adapter.ts:592-623 | A started run becomes active only if its call still holds the session and was not closed; otherwise the session is quarantined. |
| `HermesSessions.HermesClient.RunMoved` | providers/hermes/src/adapter.ts:802-834 | A settled run leaves the active map; an unsafe one quarantines its session. |
| `HermesSessions.HermesClient.BeginBranch` | providers/hermes/src/adapter.ts:399-412 | A branch takes a reusable session with no active or starting run. |
| `HermesSessions.HermesClient.EndBranch` | providers/hermes/src/adapter.ts:446-463 | A branched session is retired; one in doubt after the fork was requested is quarantined. |
| `HermesSessions.StepKeeps` | providers/hermes/src/adapter.ts:399-851 | Every step keeps the sessions starting, active and branching apart from each other and from the quarantined ones. |
| `HermesSessions.SessionsExclusive` | providers/hermes/src/adapter.ts:399-463 | A session is never in two of starting, active and branching at once, and none of these is quarantined. |
| `HermesSessions.GivenUpForGood` | providers/hermes/src/adapter.ts:836-851 | A quarantined or branched session never starts, runs, resumes or branches again. |
| `HermesSessions.HowSessionsEnd` | providers/hermes/src/adapter.ts:446-463 | Quarantine alone suffices for that, and so does a finished branch. |
| `FakeRun.FakeProviderRun.FinishRun` | packages/conformance/src/fake-provider.ts:607-632 | Settling resolves an open interaction, delivers a completed run's message, emits the terminal event last and runs the callbacks once. |
| `FakeRun.FakeProviderRun.RunMicrotask` | packages/conformance/src/fake-provider.ts:594-605 | Scheduled completion happens once, and only if nothing is pending or settled. |
| `FakeRun.FakeProviderRun.CancelRun` | packages/conformance/src/fake-provider.ts:526-552 | Cancellation settles by its configured mode, or not at all. |
| `FakeRun.FakeProviderRun.RespondTo` | packages/conformance/src/fake-provider.ts:574-592 | A fitting response resolves the interaction and completes the run. |
| `FakeRun.StepKeeps` | packages/conformance/src/fake-provider.ts:471-664 | Every step keeps numbers without gaps, the trace live or valid, and no interaction open after settling. |
| `FakeRun.SettledRun` | packages/conformance/src/fake-provider.ts:471-664 | Once settled the emitted events never change and form a valid trace. |
| `FakeRun.OneUnsettledRun` | packages/conformance/src/fake-provider.ts:361-427 | Over every interleaving of a session's starts and its runs' steps at most one run is unsettled, a new one can start exactly when none is, and every settled run has a valid trace. |

## Left out

- Process spawning and termination, sockets, `fetch`, stream objects and their error guards: only what they report is modelled, as steps.
- JSON text, UTF-8, SHA-256, UUIDs and timestamps: abstract functions or absent; event payloads (`data`, `raw`) are not carried.
- Option and profile validation, capability manifests, error texts and their mapping: checks local to one branch. Capacities the configuration guarantees (at least two events per run) appear as preconditions of constructors.
- Header fingerprint and parent session returned by `parseGatewaySnapshot`: copied through without influence on the log.
- Floating-point addition past 2^53 in usage sums: usage counts are unbounded naturals.
- The microtask between the end of a write and the decrement of the pending-write counter: one step here.
- A `toJSON` hook that closes the transport from inside serialization: only its abandoning of the request being answered is modelled.
- Diagnostic and unknown-event listeners: they cannot change the lifecycle they observe.
- Non-integer numeric JSON-RPC identifiers: identifiers are compared for equality only, and are integers or texts here.
- The inbound message queue of the JSON-RPC transport inside the barrier: modelled on values by counting what was taken, handled and acknowledged; its object form is `Framing.FrameReader`.
- AcpSessions.AcpClient.HandlePermissionRequest: requires a key not waiting already, which the transport guarantees by refusing an identifier still unanswered; the microtasks between a handler's end and its continuation are one step.
- AcpBarrier.PromptResolvesAfterItsEvents: speaks of runs in which no held reply overtakes; that is exactly when the barrier's invariant holds throughout (`AcpBarrier.BarrierHoldsExactly`).
- GatewayRun.SettledRun: takes the events handed to a run as non-terminal ones, which `DshProtocol.MappingIsPortable` proves of every mapped event.
- CodexInteractions.SettledRun: one run is modelled with its own interactions, other runs of the client only share its closing. Where an event of the run was lost to overflow it claims at most one requested and one resolved event per interaction.
- CodexProtocol.MappingIsPortable: a token count that is no natural number is left out of the usage; a failed turn's provider code is carried as the detail of the provider result.
- HermesRun.SettlesOnEvidence: cancellation requests appear only through the aborts they may lead to; their return values are not modelled.
- CodexRouting.EarlyEventsReachTheirRun: speaks of messages that arrived after the start was requested, since the code drops earlier ones.
- WireDelivery.ChunkingIsInvisible: whether the inbound queue is full depends on when the consumer reads, so for that case it claims a proper prefix only.
- HTTP requests, bounded response bodies and abort signals of the HTTP transport outside the event stream: checks local to one branch.
- The OpenCode, OpenClaw and Pi adapters, extension and harness registries, `run()` and `openSession()`: they repeat queue and run patterns shown here, or compose them.
