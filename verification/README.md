# Nixopus: agent loops, pools, realtime state and text normal forms in Dafny

A model of the parts of the repository that hold state, run protocols or transform text, with proofs of what they keep.
`dafny verify dfyconfig.toml` checks all of it.

| files | what they model |
|---|---|
| `LlmTypes`, `StreamAssembly`, `StreamBuilds` | messages, and rebuilding an assistant message from streamed deltas, also told from the sender's side |
| `AgentLoops`, `RunLaws`, `Transcripts` | the blocking and the streaming tool-calling loop; whole runs from the provider's answers; their agreement, step bound and transcripts |
| `Sse`, `SseRules`, `SseCuts`, `Delivery` | the event-stream writer and the browser's incremental reader; its rules line by line; streams that stop early; a run from agent to browser |
| `SftpPool`, `SftpSafety`, `SftpListing` | the SFTP client pool as atomic steps of any number of callers; what every run keeps; what is listed, told from the events |
| `SftpClient`, `SftpCalls` | the pool object and one caller's discipline; whole calls, retries included, among other callers |
| `RateLimiter`, `RateRule` | per-IP token buckets with periodic eviction; the answers told without buckets |
| `Topics`, `Terminals`, `SocketServer` | the topic index and the terminal sessions as protocols, and the server object that holds both |
| `ReplyMux`, `ReplyCalls` | the reply rendezvous of the queue; whole calls among other callers and dispatchers |
| `ProducerQueue` | the double-checked cache of producer queues |
| `PromptBuilder`, `PromptText` | the prompt budget, and the prompt's text |
| `HistoryTrim`, `TrimmedTranscripts` | the history processors, and what they do to tool-call transcripts |
| `ShellQuote`, `OperationIds`, `Environment` | quoting, operation ids, environment names |
| `Options`, `Sequences` | the option type; a fact about sequences |

How it is built. Code that changes state is a class or a method with the same loops and branches, proved equal to a step
function; what the code promises is then proved about all runs of those steps. A concurrent protocol is a state machine
whose steps are the sections between lock boundaries, taken by any callers in any order. Where Go leaves the order of a
map walk open, the order is a parameter and the result is proved not to depend on it.

Some promises hold only under a condition, or break under a particular timing. The condition is then proved exact, as an
if-and-only-if, or the failing run is given, or both:

- Tool-call fragments are put back together exactly when no delta carries argument text before its last fragment
  (the index at `api/pkg/llm/stream_agent.go:241`).
- The blocking loop keeps transcripts well formed exactly when no reply has tool calls under another finish reason than
  `tool_calls`; such calls are never answered.
- A caller of the SFTP pool may be handed a client that is already closed: the loser of the insertion race looks the entry
  up under the lock but raises its count after giving the lock up (`api/internal/utils/sftp_pool.go:277-286`).
- The stale branch of the pool (`api/internal/utils/sftp_pool.go:220-222`) never releases the SSH connection, so the
  balance of borrows has a term for it; a run shows the leak, and the runs without it are characterised.
- A browser whose stream stops early may show an event that nobody wrote: exactly when the text stops inside the data of
  an event after something that is not blank (`view/packages/lib/agent-client.ts:64-71`).
- Eviction from the rate limiter is invisible exactly when rate times stale time is at least the burst.
- An asynchronous clean-up after a failed broadcast can remove a subscription made after the failure; apart from such
  clean-ups the index says what the connections asked for.
- Replies to enqueued requests always find their waiter exactly when the request ids are pairwise distinct.
- Topics with colons can share a key with other topics; the exact pairs are in `Topics.TopicsCollideExactly`.
- Operation ids can collide when a base ends in a digit; the exact condition is in `OperationIds.IdsDistinctExactly`.
- The token limiter can cut a tool round in two; the history and the budget tell when.
- A normalised environment name can be invalid, because nothing cuts it to 50 characters or fills an empty one.

Where the code and its comments differ, the model follows the code: `api/pkg/llm/agent.go:14` says that a bound of 0 means
unlimited, but `NewAgent` makes it 25.

## Model

| member | source | states |
|---|---|---|
| `StreamAssembly.ConsumeStream` | api/pkg/llm/stream_agent.go:195-269 | Reading a stream gives the concatenated text, the last usage and the placed tool calls of exactly the events read; the texts written to the client are the non-empty deltas read; it ends complete, or interrupted at the cancellation point with the text so far and the opened calls without arguments, or with the first stream error |
| `StreamAssembly.ReadChunk` | api/pkg/llm/stream_agent.go:221-247 | One chunk: a usage replaces the last one, only the first choice is looked at, its text and its fragments are added |
| `StreamAssembly.AddDelta` | api/pkg/llm/stream_agent.go:236-247 | The fragments of one delta are placed in order by the index formula, in calls and builders kept apart |
| `StreamAssembly.AddFragment` | api/pkg/llm/stream_agent.go:237-246 | A fragment with an id opens a call with an empty builder; its arguments go to the builder at the formula's index, if there is one |
| `StreamAssembly.PourArguments` | api/pkg/llm/stream_agent.go:257-261 | Pouring the builders into the calls gives the same calls in whatever order the map is walked |
| `StreamAssembly.ReassemblyExact` | api/pkg/llm/stream_agent.go:236-261 | For every list of calls cut into fragments in any way and spread over any deltas, the calls are recovered if and only if no delta carries argument text before its last fragment |
| `StreamAssembly.OneCallDeltasReassemble` | api/pkg/llm/stream_agent.go:236-261 | With at most one fragment per delta reassembly always inverts splitting |
| `StreamAssembly.TwoCallDeltaLosesArguments` | api/pkg/llm/stream_agent.go:241-246 | Two whole calls in one delta: the first loses its arguments, for all calls |
| `StreamAssembly.LagsStream` | api/pkg/llm/stream_agent.go:236-247 | Text the formula misplaces always moves to an earlier call or is lost: a weight argument over the whole stream, from which the only-if half follows |
| `StreamAssembly.AttachSplit` | api/pkg/llm/stream_agent.go:236-261 | Attaching every fragment to the call opened last inverts splitting: the intended assembly, as an independent reference |
| `StreamBuilds.ReadBack` | api/pkg/llm/stream_agent.go:195-269 | Of any stream built by a sender (pieces of text with any fragments, usages, chunks without choices, end marks, in any order) an uncancelled read returns the pieces concatenated, writes the non-empty pieces in order, and gives the last usage sent; the calls the fragments were split from come back exactly when each chunk's arguments are in its last fragment |
| `StreamBuilds.BuiltReadsBack` | api/pkg/llm/stream_agent.go:217-261 | The same of the reference functions: texts, usage and calls of a built stream, told from what was sent alone |
| `AgentLoops.NewAgent` | api/pkg/llm/agent.go:27-36 | The bound of a new agent is never 0: 0 becomes 25, any other is kept |
| `AgentLoops.RunWithOptions` | api/pkg/llm/agent.go:59-123 | For any provider, the blocking loop ends in one of the outcomes of `EndsWith` (content, messages, usage, steps, failing step), calls the provider once a step with the successive transcripts, at most maxSteps times, and terminates by maxSteps - steps; every list sent or returned opens with the prompt, the history and the user's input |
| `AgentLoops.RunStreaming` | api/pkg/llm/stream_agent.go:96-184 | The same for the streaming loop with the context looked at in every place the code does, lists of cancelled runs opening alike; a cancelled run returns exactly its complete rounds, with their usage and text; a finished run has written exactly its rounds' events, a run cut short all of the rounds before its last and a prefix of that one's |
| `AgentLoops.ExecuteToolCalls` | api/pkg/llm/agent.go:125-148 | One tool message for each call, in order, with the tool's text or the encoded error |
| `AgentLoops.ToolMessages` | api/pkg/llm/agent.go:125-148 | The messages answer the calls: same number, same ids, same order, role tool |
| `AgentLoops.BuildMessages` | api/pkg/llm/agent.go:150-161 | A list that opens with the system prompt if there is one, the history in order, and the user's input as a user message, and holds nothing else |
| `AgentLoops.DeliverResults` | api/pkg/llm/stream_agent.go:174-182 | Tool results are written up to the point where the context is seen as done |
| `RunLaws.RunTells` | api/pkg/llm/agent.go:72-122 | Every uncancelled run of either loop, from the provider's answers, the tools and the heuristic alone: each list sent is the one before it, the message answered, and either one message for each tool call with what the tool returned or one nudge after an unfinished plan; the run ends with a message that asks for no tools and is no unfinished plan unless no step is left; its usage is the sum of the answers' usages |
| `RunLaws.CutShortTells` | api/pkg/llm/stream_agent.go:110-183 | A cancelled run goes the same way and hands back its complete rounds: their texts, their usages, and the messages as the next call has them or would have had them |
| `RunLaws.UsageAddsUp` | api/pkg/llm/agent.go:93-95 | After any number of calls each usage counter is the sum of that counter over the answers |
| `RunLaws.BlockingAnswers` | api/pkg/llm/agent.go:84-103 | The blocking loop takes the first choice, fails without one, and runs tools only if the finish reason and the calls both ask for it |
| `RunLaws.StreamingAnswers` | api/pkg/llm/stream_agent.go:138-153 | The streaming loop takes the assembled message, fails on a stream error, and runs tools if there are calls |
| `Transcripts.OutcomeUnique` | api/pkg/llm/stream_agent.go:110-183 | A provider and a starting transcript determine the outcome |
| `Transcripts.LoopsAgree` | api/pkg/llm/stream_agent.go:96-184 | When the streamed rounds carry what the blocking run's own calls returned, call by call, and the finish reason is tool_calls exactly when there are calls, the two loops end alike (content, messages, usage, steps, or the step bound) and neither fails; nothing is asked of calls that are not made |
| `Transcripts.SameAnswersSameRun` | api/pkg/llm/agent.go:72-122 | Providers that answer the first calls of a run alike give the same transcript and usage after them |
| `Transcripts.CarriedAnswersAgree` | api/pkg/llm/stream_agent.go:138-153 | One streamed round that carries a completion is used by the streaming loop as the blocking loop uses the completion |
| `Transcripts.BoundExceededExactly` | api/pkg/llm/agent.go:72-123 | Without provider error the step bound is exceeded exactly when every allowed step went on, and then the last one asked for tools: a nudge never takes the last step |
| `Transcripts.StreamingTranscripts` | api/pkg/llm/stream_agent.go:96-193 | Given a well-formed history, every list sent to the provider or returned by the streaming loop, cancelled runs included, follows each message with k tool calls by exactly k tool messages with the same ids in order |
| `Transcripts.TranscriptExact` | api/pkg/llm/agent.go:101-122 | For either loop: the transcript after k rounds is well formed exactly when each round ran the calls it was given, and a round that did not breaks it for good |
| `Transcripts.BlockingTranscriptExact` | api/pkg/llm/agent.go:101-118 | The blocking loop returns a well-formed transcript exactly when no reply has tool calls under another finish reason than tool_calls |
| `Transcripts.WellFormedConcat` | api/pkg/llm/agent.go:150-161 | Appending to a well-formed transcript gives a well-formed one exactly when what is appended is one |
| `Delivery.ShownIsSaid` | api/pkg/llm/stream_agent.go:146-183 | After any number of answered rounds, the text in the content events equals the text accumulated by the loop |
| `AgentLoops.ReadRound` | api/pkg/llm/stream_agent.go:130-144 | One round's stream is assembled, or cancelled, or failed, with a prefix of its texts written; an error met when the context is done counts as a cancellation |
| `Delivery.CutShortShowsPrefix` | api/pkg/llm/stream_agent.go:110-183 | A run cut short has shown all the text of the rounds before its last, and of that one only a beginning |
| `Delivery.WritesRecovered` | api/pkg/llm/stream_agent.go:271-277 | However the network cuts the event stream of any writes, the browser's reader recovers them, given a payload encoding that is one clean line and can be decoded |
| `Delivery.Receive` | view/packages/lib/agent-client.ts:27-76 | The reader on the written stream, in any chunks, gives back the writes |
| `Delivery.ToolsToldAreTranscript` | api/pkg/llm/stream_agent.go:149-182 | After any number of answered rounds the client has been told, in order, exactly the tool calls and tool results that the transcript has gained |
| `Delivery.ClientShowsTheRun` | api/pkg/llm/stream_agent.go:271-277 | End to end over writer, network cuts and reader: the browser shows a finished run's text, the text of all its rounds |
| `Delivery.ClientShowsTheBeginning` | api/pkg/llm/stream_agent.go:110-183 | The same for a cancelled or failed run: all the text of the rounds before its last, and of that one a beginning |
| `Sse.ReadSseStream` | view/packages/lib/agent-client.ts:27-76 | The incremental reader yields what reading the concatenated chunks in one piece yields: of all chunks, or of those read before the abort |
| `Sse.ReadOneLine` | view/packages/lib/agent-client.ts:46-62 | The effect of one line on the pending event type and the events yielded |
| `Sse.ReadWholeLines` | view/packages/lib/agent-client.ts:46-62 | The lines that a chunk completes, one after the other |
| `Sse.SplitAppend` | view/packages/lib/agent-client.ts:42-44 | Splitting the buffered rest with a new chunk gives the lines of the whole text: why the cuts do not matter |
| `Sse.PrintThenParse` | api/pkg/llm/stream_agent.go:271-277 | Any events with one-line fields, written and read back, give each event's received form in order |
| `Sse.RoundTripExact` | view/packages/lib/agent-client.ts:27-76 | For every list of events, print then parse is the identity if and only if every event has one-line fields, a non-empty trimmed type and a non-empty payload without trailing white space |
| `Sse.ParsedIsOneLine` | view/packages/lib/agent-client.ts:43-62 | Whatever is read, no field of a yielded event holds a newline |
| `SseCuts.StoppedReadExact` | view/packages/lib/agent-client.ts:37-72 | Of a stream of clean events that stops anywhere, only written events are yielded, in order, if and only if the text does not stop inside the data of an event after something that is not blank |
| `SseCuts.AbortedReadExact` | view/packages/lib/agent-client.ts:37-72 | So it is for an aborted reader, wherever the network has cut the stream |
| `SseCuts.ReadWritten` | view/packages/lib/agent-client.ts:37-72 | The reader on clean written events in any chunks yields exactly these events; aborted, a beginning of them exactly when the text read does not stop inside data |
| `SseRules.OtherLinesIgnored` | view/packages/lib/agent-client.ts:46-62 | Anywhere in a text, a line that is neither blank nor an event or data line, such as a comment, changes nothing |
| `SseRules.UnnamedIsMessage` | view/packages/lib/agent-client.ts:48-60 | Data without an event line, or after a blank line has ended the event before, is of type message |
| `SseCuts.CutYieldsOther` | view/packages/lib/agent-client.ts:64-71 | In every such stop the tail branch yields a shortened event that was never written |
| `SseCuts.StoppedReadInvents` | view/packages/lib/agent-client.ts:64-71 | One event, stopped after the first of its two characters |
| `SftpPool.StepKeeps` | api/internal/utils/sftp_pool.go:211-335 | Every atomic step of every caller keeps the ten relations of the pool invariant (places, counts, ledgers) |
| `SftpSafety.ClientLedger` | api/internal/utils/sftp_pool.go:211-335 | After any run every opened client is in the map, in the hands of an opener not past insertion, or closed exactly once; nothing else is closed |
| `SftpSafety.ReleaseLedger` | api/internal/utils/sftp_pool.go:275-335 | Every SSH release runs at most once, only for a borrowed connection, and never while its entry is in the map or its opener holds it |
| `SftpSafety.BorrowsBalance` | api/internal/utils/sftp_pool.go:211-335 | Borrows = live entries + pending openers + released + stale replacements; the last term because lines 220-222 close without releasing |
| `SftpSafety.BorrowsReleasedExactly` | api/internal/utils/sftp_pool.go:215-223 | The balance holds without the last term in exactly the runs in which no caller finds an entry with a borrowed connection idle for too long |
| `SftpSafety.StaleConnectionLeaks` | api/internal/utils/sftp_pool.go:215-223 | One caller that comes back too late, under any timeout: its old client is closed and the connection never released |
| `SftpSafety.CountsAreHolders` | api/internal/utils/sftp_pool.go:243-299 | An entry's inUse always equals the number of callers that acquired it and have not released it |
| `SftpSafety.IdleReplacementSparesHolders` | api/internal/utils/sftp_pool.go:215-223 | Replacing a stale entry closes only a client nobody holds and that was idle for longer than the timeout |
| `SftpSafety.HoldersStayLiveExactly` | api/internal/utils/sftp_pool.go:211-335 | For every run and every client, its holders hold a live one throughout, if and only if no late joiner (lines 277-286) raised its count after it had left the map and nobody explicitly evicted it while it was held |
| `SftpSafety.LateJoinerHoldsClosedClient` | api/internal/utils/sftp_pool.go:277-286 | A concrete interleaving of three callers in which that fails: the lookup and the increment are two steps |
| `SftpListing.ListedExactly` | api/internal/utils/sftp_pool.go:211-335 | After any run the client listed for a key, and its last use, are those told by the events: the latest insertion, used then or at the latest touch of its key since, unless an eviction or a caller that found it unheld and idle for too long came later |
| `SftpListing.GetTakesListed` | api/internal/utils/sftp_pool.go:211-249 | An idle caller that asks for a key takes the listed client if somebody holds it or its last use, by the events, is at most the idle timeout ago; otherwise the client is dropped and closed |
| `SftpClient.Pool.constructor` | api/internal/utils/sftp_pool.go:77-82 | A new pool is empty |
| `SftpClient.Pool.GetLocked` | api/internal/utils/sftp_pool.go:214-224 | The first locked section: reuse, or drop a stale entry, as the step of the protocol |
| `SftpClient.Pool.TryAcquire` | api/internal/utils/sftp_pool.go:236-249 | An entry is acquired exactly when it is in use or not yet idle for too long |
| `SftpClient.Pool.OpenNew` | api/internal/utils/sftp_pool.go:251-273 | Opening: success, a failed borrow or factory, or a failed subsystem that gives its borrow back, and closes the connection after a closed-connection error |
| `SftpClient.Pool.InsertLocked` | api/internal/utils/sftp_pool.go:275-298 | The second locked section: the entry of a faster caller, or the own one inserted with count 1 |
| `SftpClient.Pool.DiscardOwn` | api/internal/utils/sftp_pool.go:280-283 | A beaten opener releases its borrow and closes its client |
| `SftpClient.Pool.EvictLocked` | api/internal/utils/sftp_pool.go:301-309 | Eviction only when the entry still has the failed client |
| `SftpClient.Pool.EvictOrgLocked` | api/internal/utils/sftp_pool.go:321-327 | Eviction of whatever the key has |
| `SftpClient.Pool.TouchLocked` | api/internal/utils/sftp_pool.go:311-317 | Touching is the protocol's touch, of which ListedExactly says that it renews the last use of the listed client |
| `SftpClient.Pool.ReleaseAndClose` | api/internal/utils/sftp_pool.go:329-335 | The entry is released, closed and forgotten |
| `SftpCalls.System.WithClient` | api/internal/utils/sftp_pool.go:89-135 | On a pool that other callers use at every point in between: the caller ends outside the pool and holds nothing; attempts are made up to the first that is not a closed-connection failure, or the last allowed, and the result is the last attempt's; and the run of the pool shows exactly the caller's actions, in order |
| `SftpCalls.System.GetOrCreate` | api/internal/utils/sftp_pool.go:211-232 | The sections of getOrCreate in turn, with the others in between: on success the caller holds a client of the key and has acquired it once, on failure it holds nothing |
| `SftpCalls.System.InsertOrUseConcurrent` | api/internal/utils/sftp_pool.go:275-299 | The caller holds its own client, now in the pool, or after discarding that the client of a faster caller, acquired once |
| `SftpCalls.System.constructor` | api/internal/utils/sftp_pool.go:77-82 | A new pool that nobody uses |
| `SftpCalls.System.Section` | api/internal/utils/sftp_pool.go:211-335 | Each section of the pool object is the corresponding step of the protocol, for every caller and place |
| `SftpCalls.System.Other` | api/internal/utils/sftp_pool.go:211-335 | Nothing another caller does moves this one |
| `SftpCalls.PhaseIsPlace` | api/internal/utils/sftp_pool.go:236-299 | A caller holds a client in the protocol, and is counted in its entry's inUse, exactly in the phases of its discipline between acquiring and releasing |
| `SftpCalls.OutstandingIsHeld` | api/internal/utils/sftp_pool.go:236-299 | In every run, the references a caller has acquired and not released are one while it holds a client and none otherwise |
| `SftpCalls.System.UseClient` | api/internal/utils/sftp_pool.go:110-131 | One attempt with a client: run, touch on success, release, then evict after a closed-connection error, and close the connection if the client came from the pool |
| `SftpClient.CallKeepsPromises` | api/internal/utils/sftp_pool.go:101-135 | Whatever the attempts meet: every acquired reference is released; fn runs at most max-attempts times and again only after closed-connection errors; nil is returned exactly when the last run returned nil, and an error is that of the last run or of the last attempt to get a client; the post-loop error exactly when max-attempts is below 1 |
| `SftpClient.ActionsCounted` | api/internal/utils/sftp_pool.go:101-135 | Over any attempts: each client gotten is acquired and released once, the key is touched once for each success, the client is evicted once for each closed-connection error of fn, and the connection is closed once for each lost one that came from the pool or could not be opened |
| `SftpClient.OutstandingExact` | api/internal/utils/sftp_pool.go:110-131 | A caller that keeps this discipline has exactly one reference from acquiring to releasing and none otherwise, over any number of retries |
| `RateLimiter.Limiter.constructor` | api/internal/middleware/rate_limiter.go:130-139 | A limiter starts with no buckets |
| `RateLimiter.Limiter.Request` | api/internal/middleware/rate_limiter.go:159-193 | A request gets or creates its IP's bucket, is allowed exactly when a token is there, and takes one only then |
| `RateLimiter.Limiter.Cleanup` | api/internal/middleware/rate_limiter.go:144-151 | A pass deletes exactly the stale buckets, in whatever order the map is walked |
| `RateLimiter.EvictionUnobservableExactly` | api/internal/middleware/rate_limiter.go:130-196 | Every run of requests and sweeps is answered as without eviction, if and only if rate times stale time is at least the burst |
| `RateLimiter.EvictionSimulates` | api/internal/middleware/rate_limiter.go:130-196 | Under that premise the evicting limiter lacks only full buckets, at every moment of every run |
| `RateLimiter.WitnessDiffers` | api/internal/middleware/rate_limiter.go:144-151 | Otherwise: empty a bucket, sweep between stale and full, ask for a burst again; an explicit run with different answers for every such configuration |
| `RateLimiter.WindowBound` | api/internal/middleware/rate_limiter.go:159-193 | In any window of any run an IP is allowed at most burst + rps * length requests |
| `RateRule.GrantedExactly` | api/internal/middleware/rate_limiter.go:159-193 | The answers told without buckets: if rate times stale time is at least the burst, the evicting limiter grants a request if and only if the burst is at least one and every window from an earlier event to the request, with it, holds at most burst + rps * length grants |
| `RateRule.FullOrUsed` | api/internal/middleware/rate_limiter.go:159-193 | At any moment of any run the bucket is full, or some window of the run has used its bound up to the tokens left |
| `RateLimiter.UsesMeetPremise` | api/internal/routes/routes.go:290 | The telemetry limiter (0.01/s, burst 3, 300 s) and the global one (5/s, burst 10, 180 s) meet the premise |
| `Topics.KeyReadsBack` | api/internal/realtime/topic_manager.go:72-76 | Topic and resource are read back from the key of a colon-free topic |
| `Topics.KeysDistinct` | api/internal/realtime/topic_manager.go:72-76 | Keys of colon-free topics are equal exactly when topic and resource are |
| `Topics.TopicsCollideExactly` | api/internal/realtime/topic_manager.go:72-76 | Two different topics share a key for some resources if and only if one of them followed by a colon is a prefix of the other |
| `Topics.IndexRefines` | api/internal/realtime/topic_manager.go:67-157 | After any possible history a connection is listed under a key exactly when its latest event for the key is a subscribe and it has not disconnected; no key is listed with nobody; only live connections are listed |
| `Topics.ListedAsWishedExactly` | api/internal/realtime/topic_manager.go:67-157 | A connection is listed as its own latest subscribe, unsubscribe or disconnect says, unless it said subscribe and a clean-up of that key has run since |
| `Topics.LateCleanupDropsResubscription` | api/internal/realtime/topic_manager.go:148-153 | A clean-up started by a failed write, run after a new subscribe, removes that subscription |
| `SocketServer.Server.constructor` | api/internal/realtime/init.go:83-90 | A new server has no topics and no sessions |
| `SocketServer.Server.SubscribeToTopic` | api/internal/realtime/topic_manager.go:67-90 | Adds the connection under the key, tells it so, and changes nothing else |
| `SocketServer.Server.UnsubscribeFromTopic` | api/internal/realtime/topic_manager.go:97-123 | Removes the connection from the key, and the key when it was the last; tells it so if the key was listed |
| `SocketServer.Server.HandleSubscribe` | api/internal/realtime/topic_manager.go:19-34 | A message with a topic and data, whose resource id is a string if the data is an object, subscribes to that topic and resource; any other is refused with an error and changes nothing |
| `SocketServer.Server.HandleUnsubscribe` | api/internal/realtime/topic_manager.go:44-60 | The same for unsubscribing |
| `SocketServer.Server.BroadcastToTopic` | api/internal/realtime/topic_manager.go:129-157 | Writes once to exactly the connections listed under the key and starts a clean-up for exactly those whose write failed |
| `SocketServer.Server.LeaveTopics` | api/internal/realtime/init.go:168-178 | The connection leaves every key, emptied keys leave the index, in whatever order it is walked |
| `SocketServer.Server.CloseTerminals` | api/internal/realtime/init.go:180-187 | Every session of the connection is closed once and the connection leaves the map |
| `SocketServer.Server.HandleDisconnect` | api/internal/realtime/init.go:164-203 | The connection leaves every topic and map, its sessions are closed, its monitors stopped, and it is closed itself; topics and sessions change as in the two protocols |
| `SocketServer.Server.StopMonitors` | api/internal/realtime/init.go:189-201 | Each monitor of the connection is stopped once and forgotten |
| `SocketServer.Server.GetOrCreateTerminal` | api/internal/realtime/terminal_handler.go:50-71 | Reuses a running session of the right server; otherwise closes the old one and creates a new one |
| `SocketServer.Server.CreateTerminal` | api/internal/realtime/terminal_handler.go:73-105 | A fresh session is registered exactly if the connection has an organization whose id is non-empty and well formed and the terminal starts; otherwise nothing changes |
| `Terminals.SessionsConserved` | api/internal/realtime/terminal_handler.go:50-105 | After any history every session created is registered in exactly one place or was closed exactly once; nothing else is closed; no disconnected connection has sessions |
| `Terminals.HandedSessionFits` | api/internal/realtime/terminal_handler.go:50-71 | The session a message is handed is registered for it, not closed, not ended, and of the server it names; one that fits already is kept, with nothing closed or created; none is handed only if none could be created |
| `ReplyMux.OwnFirstReply` | api/internal/queue/reply_mux.go:56-76 | With distinct request ids, in every run a caller that returns a reply returns the first one sent for its own request; the waiter map holds exactly the callers in flight |
| `ReplyMux.EnqueuedReplyArrives` | api/internal/queue/machine_lifecycle.go:77-102 | A reply to an enqueued request always finds its waiter, and the first one is what the caller receives |
| `ReplyMux.SharedIdLosesReply` | api/internal/queue/reply_mux.go:56-64 | Any two callers with one id: when the first gives up, the second waits without a waiter and its reply is lost |
| `ReplyMux.RepliesFoundExactly` | api/internal/queue/reply_mux.go:56-76 | In all runs, for all callers and dispatchers, the lookup of a reply to an enqueued request finds a waiter, if and only if the request ids are pairwise distinct |
| `ReplyMux.ChannelNamesId` | api/internal/queue/reply_mux.go:78-83 | A request id is read back from its channel, and only channels under the prefix yield one |
| `ReplyMux.Multiplexer.constructor` | api/internal/queue/reply_mux.go:22-24 | A multiplexer starts with no waiters |
| `ReplyMux.Multiplexer.RegisterWaiter` | api/internal/queue/reply_mux.go:56-60 | A fresh channel of capacity one becomes the id's waiter |
| `ReplyMux.Multiplexer.RemoveWaiter` | api/internal/queue/reply_mux.go:62-64 | The id has no waiter afterwards |
| `ReplyMux.Multiplexer.Load` | api/internal/queue/reply_mux.go:67-70 | The id's waiter, if there is one |
| `ReplyMux.Multiplexer.Offer` | api/internal/queue/reply_mux.go:71-75 | A send that never waits: a full channel keeps what it has |
| `ReplyMux.Multiplexer.Receive` | api/internal/queue/machine_lifecycle.go:92-93 | Takes what the waiter's channel holds |
| `ReplyMux.Multiplexer.Dispatch` | api/internal/queue/reply_mux.go:66-76 | Without a waiter nothing happens; a full channel keeps what it has; no dispatch waits |
| `ReplyMux.Multiplexer.OnMessage` | api/internal/queue/reply_mux.go:42-50 | A message is dispatched to the request its channel names |
| `ReplyCalls.Exchange.ExecuteMachineLifecycle` | api/internal/queue/machine_lifecycle.go:66-102 | Among any other callers and dispatchers, between any two of its steps: the task carries the payload's request id or a drawn one, goes to the server's own queue or the common one, and expires 15 s after it was made; the waiter is registered before it is queued and gone when the call returns; the result is by the error path, the reply or the deadline taken; and with distinct ids a reply it returns is the parsed first one sent for its request |
| `ReplyCalls.TaskFor` | api/internal/queue/machine_lifecycle.go:71-82 | The request id is the payload's or the one drawn; the queue is machine-lifecycle, with the server's id after a hyphen if one is named |
| `ReplyCalls.Exchange.RegisterAndEnqueue` | api/internal/queue/machine_lifecycle.go:77-87 | The waiter is registered before the task is queued, with the others in between; a failed enqueue ends the call without a waiter |
| `ReplyCalls.Exchange.Select` | api/internal/queue/machine_lifecycle.go:92-101 | The select: a reply in the channel, unless the deadline has passed and is chosen |
| `ReplyCalls.Exchange.Perform` | api/internal/queue/reply_mux.go:56-76 | Each operation of the multiplexer object is the corresponding step of the protocol, for every caller and dispatcher |
| `ReplyCalls.Exchange.Yield` | api/internal/queue/reply_mux.go:56-76 | Nothing that others do moves a caller |
| `ReplyCalls.Exchange.constructor` | api/internal/queue/reply_mux.go:18-24 | A new multiplexer that nobody uses |
| `PromptBuilder.StableSortIsStable` | api/pkg/llm/prompt_builder.go:48-52 | The order is by priority and keeps the order of addition within each priority |
| `PromptBuilder.StableOrderUnique` | api/pkg/llm/prompt_builder.go:48-52 | That contract determines the order, so any stable sort gives it |
| `PromptBuilder.CapSections` | api/pkg/llm/prompt_builder.go:59-68 | Each section is cut at its own cap, or the default cap, with a marker |
| `PromptBuilder.TrimFromBack` | api/pkg/llm/prompt_builder.go:75-85 | The backward loop equals spending the budget from the front: whole texts while they fit, the rest of the next, then nothing |
| `PromptBuilder.BudgetExact` | api/pkg/llm/prompt_builder.go:75-85 | Texts over the budget: all before some place j are whole, all after it empty, and text j keeps just what is left, so that the retained characters total exactly the budget |
| `PromptBuilder.FittedTotal` | api/pkg/llm/prompt_builder.go:75-85 | The fitted texts are the texts themselves when these fit; otherwise their length is the budget, plus at most one 16-character marker |
| `PromptBuilder.Render` | api/pkg/llm/prompt_builder.go:87-97 | Each non-empty text on its own lines with a blank line after it |
| `PromptBuilder.Capped` | api/pkg/llm/prompt_builder.go:59-68 | A text within its cap is kept; a longer one becomes its first cap characters and the marker |
| `PromptBuilder.Builder.constructor` | api/pkg/llm/prompt_builder.go:30-32 | A new builder has no sections and the default bound |
| `PromptBuilder.Builder.Add` | api/pkg/llm/prompt_builder.go:35-38 | Adds the section at the end; duplicates are kept |
| `PromptBuilder.Builder.Build` | api/pkg/llm/prompt_builder.go:43-100 | The capped texts in stable priority order, fitted to the budget, are shown: apart from newlines the prompt is their concatenation; it is the non-empty ones with a blank line between them when none ends in a newline; in general each one that something follows stands in it as it is, a blank line after it; no newline ends it; and the builder is left as it was |
| `PromptText.TrimmedBlocksShow` | api/pkg/llm/prompt_builder.go:87-99 | So it is for any texts, written with blank lines and trimmed |
| `PromptBuilder.SmallPrompt` | api/pkg/llm/prompt_builder.go:43-100 | Sections within their caps and the budget, none ending in a newline: the prompt is their contents in stable priority order, the non-empty ones with a blank line between them |
| `PromptBuilder.PromptBound` | api/pkg/llm/prompt_builder.go:43-100 | Its length is at most the budget + 16 + 2 (k - 1) for k non-empty sections |
| `HistoryTrim.LimitTokens` | api/pkg/llm/processor.go:84-108 | What is kept is the longest suffix, in original order, that the budget left by the system messages affords, or the last message alone when none is affordable; counted in characters, each content rounded up to a multiple of four: more than one message only within four characters a token with the system messages, and one message more would be beyond that |
| `HistoryTrim.EstimateTokens` | api/pkg/llm/processor.go:110-112 | The estimate is a quarter of the length, rounded up |
| `HistoryTrim.TokenBudget` | api/pkg/llm/processor.go:85-88 | The budget left by the system messages |
| `HistoryTrim.ReverseFront` | api/pkg/llm/processor.go:101-104 | The in-place swap loop reverses the first n places |
| `HistoryTrim.LongestUnique` | api/pkg/llm/processor.go:84-108 | There is exactly one such suffix |
| `HistoryTrim.LimitersCompose` | api/pkg/llm/processor.go:84-108 | Limiting twice, with any two budgets, keeps what the smaller budget alone keeps |
| `HistoryTrim.LimiterIdempotent` | api/pkg/llm/processor.go:84-108 | Limiting is idempotent |
| `HistoryTrim.PruneToolResults` | api/pkg/llm/processor.go:151-168 | From the third step on, exactly the tool messages older than the last keepRecent and longer than the limit keep their first characters up to it and a marker, and everything else is as it was; it panics exactly for a negative keepRecent, or a negative limit with an old tool message, and leaves what it has cut by then |
| `HistoryTrim.Pruned` | api/pkg/llm/processor.go:156-167 | The last keepRecent messages are unchanged |
| `HistoryTrim.PrunerIdempotent` | api/pkg/llm/processor.go:151-168 | Pruning is idempotent, keeps roles, ids and calls, and leaves no old tool result longer than the limit plus the marker |
| `TrimmedTranscripts.SuffixWellFormed` | api/pkg/llm/processor.go:90-106 | A suffix of a well-formed transcript is well formed exactly when it does not start with a tool message |
| `TrimmedTranscripts.CutIsThere` | api/pkg/llm/processor.go:90-99 | The place where the limiter cuts is the only one at which the messages from there on are affordable, or one message, and one more would be too many: a condition on history and budget alone |
| `TrimmedTranscripts.LimiterKeepsTranscript` | api/pkg/llm/processor.go:84-108 | The limiter cuts a tool round in two exactly when the message at that place is a tool message |
| `TrimmedTranscripts.LimiterCanSplitRound` | api/pkg/llm/processor.go:92-99 | A concrete history on which it does |
| `TrimmedTranscripts.PrunerKeepsTranscript` | api/pkg/llm/processor.go:161-166 | The pruner keeps a transcript well formed, and a broken one broken |
| `ShellQuote.QuoteReads` | api/internal/utils/shell.go:52-56 | Anywhere outside quotes, a quoted value adds exactly itself to the current word, whatever characters it holds |
| `ShellQuote.QuotedListReadsBack` | api/internal/features/deploy/tasks/s3_export.go:57-62 | Quoted values joined by single spaces are read by the rules of POSIX.1-2017 XCU sections 2.2.2 and 2.2.3 as exactly that list |
| `ShellQuote.QuotedArguments` | api/internal/features/github-connector/service/git/git.go:56 | After any command prefix of plain words, quoted values become exactly the remaining words |
| `ShellQuote.QuoteInjective` | api/internal/utils/shell.go:52-56 | Quoting is injective |
| `OperationIds.DecimalReadsBack` | api/internal/openapi/route_contract.go:56 | A printed number reads back as itself and has no leading zero |
| `OperationIds.DecimalInjective` | api/internal/openapi/route_contract.go:56 | Decimal printing is injective |
| `OperationIds.IdsDistinctExactly` | api/internal/openapi/route_contract.go:48-57 | Over any sequence of calls the ids are pairwise distinct if and only if no base is another base followed by a number from 2 up to that one's repetitions, nor by 1 with both used often enough (12 and 2 times) |
| `OperationIds.NoDigitNoClash` | api/internal/openapi/route_contract.go:48-57 | In particular they are when no base ends in a decimal digit |
| `OperationIds.DigitBaseCollides` | api/internal/openapi/route_contract.go:48-57 | getItem, getItem, getItem2: the last two ids are equal |
| `OperationIds.Registry.constructor` | api/internal/openapi/route_contract.go:15 | The counts start empty |
| `OperationIds.Registry.EnsureUnique` | api/internal/openapi/route_contract.go:48-57 | The id is the base for its first use and the base with its use number after it later; the counts stay those of the bases asked for |
| `OperationIds.NormalizeOperationId` | api/internal/openapi/postprocess.go:152-168 | The base is that of the summary, or of the fallback when the summary has no letter or digit; the id is numbered the same way |
| `OperationIds.ToLowerCamel` | api/internal/openapi/route_contract.go:181-202 | The in-place loop cases the words of the input and joins them, which is the same as going through the text once |
| `OperationIds.CamelByCharacter` | api/internal/openapi/route_contract.go:181-202 | Character by character: only letters and digits are kept, the first is made small, one that follows a separator capital, and the others stay as they are |
| `OperationIds.LowerCamelKeepsLetters` | api/internal/openapi/route_contract.go:181-202 | A base holds all letters and digits of the summary, in order, up to case |
| `OperationIds.LowerCamelIdempotent` | api/internal/openapi/route_contract.go:181-202 | A base is its own base |
| `OperationIds.SummariesWithoutDigit` | api/internal/openapi/route_contract.go:23-33 | Routes whose summaries' last letter or digit is not a digit never share an id |
| `ProducerQueue.Cache.constructor` | api/internal/queue/init.go:25 | The cache starts empty |
| `ProducerQueue.Cache.Lookup` | api/internal/queue/init.go:71-76 | The section under the read lock |
| `ProducerQueue.Cache.LookupOrRegister` | api/internal/queue/init.go:78-87 | The section under the write lock registers only a name that is still missing |
| `ProducerQueue.Cache.GetOrCreateProducerQueue` | api/internal/queue/init.go:70-88 | An undisturbed call: the cached queue, or one new registration |
| `ProducerQueue.RegisteredOnce` | api/internal/queue/init.go:70-88 | In every interleaving each name is registered at most once, and two callers hold the same queue exactly when they asked for the same name |
| `ProducerQueue.ProgressExact` | api/internal/queue/init.go:70-88 | Over any run a held queue never changes, a caller has moved on exactly if its read section ran, and one whose write section ran holds a queue |
| `Environment.MatchesExactly` | view/packages/utils/environment.ts:1 | The expression, read as words joined by single hyphens, accepts exactly the texts of lower-case letters, digits and hyphens that are not empty, do not start or end in a hyphen and have no two in a row |
| `Environment.FormatIsNormalForm` | view/packages/utils/environment.ts:3-10 | Normalising gives the empty text or a match, and is idempotent |
| `Environment.FixedExactly` | view/packages/utils/environment.ts:3-10 | A text is left alone exactly when it is empty or matches; so every valid name is |
| `Environment.FormattedValidExactly` | view/packages/utils/environment.ts:3-14 | A normalised input is a valid name if and only if it has a word and its words with the hyphens between them have at most 50 characters: nothing cuts longer inputs |
| `Environment.FormattedMayBeInvalid` | view/packages/utils/environment.ts:3-14 | Fifty-one letters stay as they are, a lone hyphen becomes empty; neither result is valid |
| `Environment.FormatJoinsWords` | view/packages/utils/environment.ts:3-10 | Normalising cuts the lower-cased input at hyphens, underscores and white space, drops everything but letters and digits, and joins the non-empty pieces by single hyphens |

## Left out

- Providers, tools and the plan heuristic: a provider is an arbitrary function of the call number and the messages sent, a tool a function of its name and arguments, and the heuristic of `api/pkg/llm/continuation.go` an uninterpreted predicate shared by both loops.
- Model names, temperature, token limits and the tool list of a completion request: passed through unchanged by both loops.
- JSON, UUID and UTF-8: payloads are opaque one-line strings and texts are sequences of characters, which for the byte lengths in the prompt and history budgets means one character per byte.
- Integer widths: token counts, step counters and sizes are unbounded integers.
- Error texts: an outcome keeps the step and the provider's error, not the wrapped message.
- AgentLoops.RunStreaming: the choice between a write that reached the client and one lost with the connection is left out; `written` is what the server sent.
- Sse.ReadSseStream: the attempt to parse the payload as JSON, with the text itself as fallback, is left out; the payload stays text.
- SftpCalls.System.WithClient: a panic of fn is not modelled, and the lookup of organization, pool and SSH manager before the loop is left out.
- SftpClient.Pool.OpenNew: the SSH manager is present only as borrows, releases and the closing of its connection.
- RateLimiter.Limiter.Request: the reading of the clock for lastSeen and the call of Allow are one instant, the library limiter is taken by its documented contract over real numbers, and IP extraction is left out.
- SocketServer.Server.HandleDisconnect: the per-connection write mutex is left out; that a connection's sessions are pairwise distinct is required here and follows from Terminals.SessionsConserved.
- SocketServer.Server.CreateTerminal: the error messages sent to the client are left out; the parsing of the organization id and the start of the terminal are parameters.
- Terminals.SessionsConserved: a message of a connection that is no longer served changes nothing, as the read loop that handles messages has returned before the disconnect runs.
- ReplyCalls.Exchange.ExecuteMachineLifecycle: the action and instance name of the payload are left out, and the queue is its name only.
- ReplyMux.OwnFirstReply: fairness is not modelled; a caller may wait until it times out.
- ProducerQueue.RegisteredOnce: the queue library is a list of registrations.
- PromptBuilder.Builder.Build: the library sort is taken by its contract, which StableOrderUnique shows to determine the result.
- HistoryTrim.PruneToolResults: the messages are a value, so sharing of the slice with the caller is not captured.
- HistoryTrim.LimitTokens: the tool budget and context injector of the same file are left out as single-branch code.
- ShellQuote.QuotedListReadsBack: NUL characters, which no shell argument can hold, are not treated apart; expansions, operators and comments stop the reader.
- OperationIds.NormalizeOperationId: the fallback summary is a parameter, and so is the class of white space.
- Environment.FormatIsNormalForm: the platform's case mapping and white-space class are parameters, of which only their effect on name characters is assumed.
- RBAC tables, audit mappings, settings, configuration, routing, schedulers and the user interface: finite tables, plumbing or presentation.
