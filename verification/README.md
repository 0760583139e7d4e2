# Makai client protocol verification

The Makai SDKs (Go, Rust, TypeScript, Python) speak one multiplexed line protocol over the
standard input and output of a runtime. This project models the parts of those clients, and of
the terminal emulator in the TUI test driver, whose correctness depends on many steps taken
together, and proves for all inputs, all runs and all interleavings what they promise.

- `session/` is the agent session protocol: any number of attempts, which may share
  caller-supplied session ids, one runtime, and two FIFO queues, as a step system. Its invariant
  is proved for every run; the objects of the Rust, Go and TypeScript clients refine its attempts.
- `transport/` is frame routing (Go and Rust), the closing race, and the bounded line reader.
- `terminal/` is the emulator: a resumable parser and a screen with scroll regions.
- `ids/` is ULID arithmetic, `refs/` model references, `events/` the event pipeline, `retry/` the
  login retry of the Rust client; `common/` holds what several of them share.

`dafny verify dfyconfig.toml` checks everything.

## What the proofs turned up

- Stopping only one's own session holds of the Rust client in every run. Of the Go client it holds
  in every run in which no session id is used by more than two attempts, and of no larger number
  (`SessionOwnership.OwnershipIff`). Before its start is acknowledged, Go takes an error that names
  no request for the answer to that start (go/agent.go:322), so a late error of an earlier run that
  shared the id leads it to stop with the number after its start; two attempts cannot meet that way,
  because the one that caused the error expects a later number, but a third one's fresh registration
  can (`ForeignStop`). The bound is the same for everything else about Go runs: the bracket around
  the runtime's counter (`SessionLimits.BracketIff`), the outcome of the probe (`ProbeIff`) and the
  invariant (`InvariantIff`) hold for two users of an id and fail for three, where an accepted and
  running attempt that never stopped may find its id unregistered. With only refusals that name the
  start taken, as Rust does, all of it holds without a bound; so it does of the guarded variant of
  Go. TypeScript takes the same frames before acceptance as that variant, but its attempts on one
  session share a queue, and no result here is about whole TypeScript runs: there a stale frame of an
  earlier run, read after acceptance, clears the unresolved sequence.
- The closed error of a Rust subscription comes last exactly if the router was open at the
  registration, or the registration got no route (`RustRouter.ErrorIsFinalIff`):
  rust/src/transport.rs:500-523 registers a route without asking whether the router is closed.
- `Run` and `Stream` of the Go client fail differently in three cases, and in no other
  (`AgentRuns.FailuresAgreeIff`). A stream tests the stop reason and api on the end itself
  (go/agent.go:187), `Run` those of the response it has put together (go/provider.go:267-276), where
  the api of the last message start comes before the end's and the last message end stands in for a
  missing stop reason (go/payload.go:447-519). So only `Run` reports missing credentials if the end
  names no stop reason after a failed turn, or if the message tells only of Anthropic's api and just
  the message start names that; only the stream does if just the end names it (`DenialsDiffer`); and
  both do, of different providers, if the message start names another one. A run that a result frame
  settles fails alike in both.
- They report different usages as well (`AgentRuns.UsagesAgreeIff`). Where an `agent_result` frame
  settles the run, `Run` returns the usage of that frame alone (go/agent.go:45-48), a stream the sum
  over the turns: they agree exactly if no turn reports a usage or the turns add up to the frame's,
  and for a frame that repeats the last turn's usage exactly if the others add up to nothing
  (`LastTurnIsNotTheSum`). Where events settle it, both add up, but a stream that opens with a message
  end counts that usage twice (go/agent.go:190-208): they agree exactly if there is no such usage or
  it is all zero.
- A tool call whose start carries no index is given whole to the caller exactly if no other call is
  open at its start, or what is open at index 0 is a call just like it (`ToolBuffers.ImplicitCallIff`):
  the start takes the number of open calls as its index, the deltas and the end take 0
  (go/events.go:209-216).
- A terminal stream may arrive in any chunks exactly if it is `SplitSafe`
  (`VtParser.ChunkingIff`): control sequences of up to 65 bytes and control strings of up to 8193
  are safe, charset designators are not, unless what precedes them makes the parser wait.
- The line reader keeps the newline on its lines, where its comment says it does not
  (go/jsonutil.go:130).
- Go rebuilds a message from everything after the last message start, Rust and TypeScript stop at
  the message end: they agree exactly if nothing is said after it (`Content.ClientsAgreeIff`).

## Assumptions

The runtime's rules are those its conformance script tests (scripts/stdio-conformance.py:683-738,
824-840, 886-898): a start carries sequence 1, gaps and duplicates are rejected without advancing
the counter, an out-of-order stop leaves the session registered, a registered id answers
`agent_busy`, and a tool result consumes no sequence. A well-formed start on a free id is accepted.
Frames of a run, and errors that name no request, appear only after its message was admitted. No
session is evicted while an attempt is under way. A tool result answers a call the runtime made,
and its answer is one that every client ignores. Sends reach the runtime. Timeouts, the runtime's
judgement of a payload, and which task runs next are nondeterministic; clock readings, random draws
and what arrives are inputs. A request's position in the history of requests is its message id.
Dropping a Rust session sends its stops as one step.

## Model

| member | source | states |
|---|---|---|
| SessionRuns.ReachableInv | scripts/stdio-conformance.py:683-738 | in every reachable state of attempts, runtime and queues, every request, reply, registration and attempt satisfies the session invariant; of the Go client, where no attempt took another run's error for its own refusal or no id is used by three attempts |
| SessionLimits.InvariantIff | go/agent.go:313-336 | for every client and k: the invariant holds in every reachable state in which no id is used by more than k attempts, exactly if the client takes only refusals that name its own start, or k is at most 2 |
| SessionLimits.BracketIff | go/agent.go:394-431 | with the same bound, and for no larger one: however the runtime judges the queued messages, once it has served the queue every attempt under way is registered and its counters bracket the expected sequence |
| SessionLimits.ProbeIff | go/agent.go:516-559 | with the same bound, and for no larger one: no probe that has read its answers is left without a confirmation |
| SessionTheorems.BracketOnceDrained | rust/src/agent.rs:702-736 | however the runtime judges the queued messages, once it has served the queue an accepted, unstopped attempt is still registered, and the expected sequence is its next one, or with the message unresolved that or the unresolved one |
| SessionTheorems.DropUnregisters | rust/src/agent.rs:150-173 | dropping a Rust session that may be stopped leaves its id unregistered once the queue is served, and exactly one of its stops was accepted |
| SessionTheorems.ProbeOutcome | rust/src/agent.rs:754-803 | at most two stops; the post-send one only after the pre-send one was rejected as out of order; a probe whose answers come in time ends confirmed, and the registration is gone |
| TypeScriptProbe.StopAgentWithSequenceProbe | typescript/src/cancel_helpers.ts:105-148 | the first deciding answer to the pre-send stop counts: stopped gives its sequence, out of order sends the post-send stop, whose first deciding answer then counts, unknown ends it; other refusals are passed over |
| TypeScriptProbe.ProbeMeetsAttempt | typescript/src/cancel_helpers.ts:105-148 | where every refusal of a stop decides, the probe sends and confirms what the attempt of the step system does on the same frames |
| TypeScriptProbe.LogDecides | typescript/src/cancel_helpers.ts:150-158 | the runtime refuses a stop only in ways that decide |
| TypeScriptProbe.ResultIsTrue | typescript/src/cancel_helpers.ts:105-148 | in every reachable state, a sequence returned after reading replies of the runtime is that of a stop of the attempt's own which the runtime accepted, and its registration is gone; and a reply read to an accepted stop is never missed |
| SessionOwnership.StopsAreOwn | rust/src/agent.rs:122-148 | a stop the runtime is about to accept removes a registration created by a start of the attempt that sent it |
| SessionOwnership.OwnershipIff | go/agent.go:313-336 | for every client and k: that holds in every reachable state in which no id is used by more than k attempts, exactly if, before acceptance, the client takes only refusals that name its own start, or k is at most 2 |
| SessionOwnership.ForeignStop | go/agent.go:321-336 | a run of three Go attempts on one id in which one is about to stop another's session |
| SessionRoutes.RunFramesReachTheirOwner | go/transport.go:206-257 | a frame naming only its session is delivered to the attempt whose registration emitted it, while that is open, and to no other, whoever subscribed before |
| SessionRoutes.ClosedGetsNothing | go/transport.go:320-345 | a closed attempt is on no route and no frame is routed to it |
| Routes.PromotionKeepsOrder | go/transport.go:243-257 | promotion is a permutation that puts one subscription first and keeps the order of the rest |
| Routes.WithoutKeepsOrder | go/transport.go:320-334 | unsubscribing removes just that subscription and keeps the order of the rest |
| RustSession.SessionGuard.Stop | rust/src/agent.rs:126-147 | one stop with the guard's sequence, exactly if the session may be stopped; settled either way |
| RustSession.SessionGuard.DropGuard | rust/src/agent.rs:150-173 | both candidates in order when admission is unresolved, else one, none if the session may not be stopped; the guard's fields afterwards |
| RustSession.AgentSession.constructor | rust/src/agent.rs:608-649 | sends the start and is the attempt that has begun, armed only if it owns the route |
| RustSession.AgentSession.SendMessage | rust/src/agent.rs:702-727 | the message goes out once, with sequence 2, and its admission is unresolved |
| RustSession.AgentSession.RollbackMessageSequence | rust/src/agent.rs:732-737 | a rejected message gives its sequence back |
| RustSession.AgentSession.Take | rust/src/agent.rs:651-700 | one frame changes the session and sends what the attempt of the step system does |
| RustSession.AgentSession.FinishWithoutStop | rust/src/agent.rs:739-752 | one stop, or none, as the attempt does |
| RustSession.AgentSession.DropSession | rust/src/agent.rs:150-173 | the guard's drop is the drop step of the attempt |
| RustSession.AgentSession.ProbeStop | rust/src/agent.rs:774-803 | skips to the first frame answering the stop and reports it; unknown when there is none |
| RustSession.AgentSession.Teardown | rust/src/agent.rs:754-772 | the waiting teardown sends and ends as the attempt does on the same frames |
| StopReplies.AwaitsAnswer | rust/src/agent.rs:774-803 | waiting passes over frames that answer something else, and goes on with the first that answers |
| GoSession.AgentRun.constructor | go/agent.go:94-138 | sends the start and is the attempt that has begun |
| GoSession.AgentRun.SendMessage | go/agent.go:394-421 | the message goes out with sequence 2, its admission unresolved |
| GoSession.AgentRun.RollbackMessage | go/agent.go:423-431 | a rejected message gives its sequence back |
| GoSession.AgentRun.TakeRefused | go/agent.go:321-336 | a refusal is the attempt's own, parked, or the end of the run, as in the step system |
| GoSession.AgentRun.Take | go/agent.go:304-392 | one frame changes the run and sends what the attempt of the step system does; a frame that is no event ends the run |
| GoSession.AgentRun.AwaitStopReply | go/agent.go:536-559 | skips to the first frame that answers the stop, be it stopped or refused; settled if stopped, retry if out of order |
| GoSession.AgentRun.Teardown | go/agent.go:485-502 | sends and ends as the attempt does on the same frames |
| GoSession.AgentRun.StopWithSequenceProbe | go/agent.go:516-534 | tries the candidates in turn as the probing attempt does |
| TypeScriptSession.FrameQueues.DequeueOwnFrame | typescript/src/stdio_client.ts:351-372 | a queued reply to the request waited on comes first, else the first frame of the session's queue that may be taken, before acceptance only such a reply; every other frame keeps its place |
| TypeScriptSession.ActiveAgentSession.constructor | typescript/src/execution_client.ts:409-431 | sends the start and is the attempt that has begun |
| TypeScriptSession.ActiveAgentSession.RollbackUnresolvedMessage | typescript/src/execution_client.ts:398-402 | a rejected message gives its sequence back |
| TypeScriptSession.ActiveAgentSession.TakeRefused | typescript/src/execution_client.ts:449-476 | a refusal is the end of the run, rolled back or given up as the guarded attempt does |
| TypeScriptSession.ActiveAgentSession.Take | typescript/src/execution_client.ts:443-520 | one frame changes the session and sends what the guarded attempt does; a frame that shows nothing fails the run besides |
| TypeScriptSession.ActiveAgentSession.StopAgentSession | typescript/src/execution_client.ts:361-396 | the stops of the attempt's teardown, and the post-send one exactly if the probe finds the first out of order |
| LineReader.LinesCutStream | go/jsonutil.go:116-120 | the lines of a stream join up to it, and a newline ends every line but perhaps the last and occurs nowhere else |
| LineReader.CutIsUnique | go/jsonutil.go:116-120 | there is no other way to cut a stream into lines |
| LineReader.BufferedLineReader.ReadLine | go/jsonutil.go:132-158 | for every buffer size: the line up to the newline, oversized, or the failure; the stream goes on after that line |
| LineReader.BufferedLineReader.DiscardLine | go/jsonutil.go:160-175 | drops exactly the rest of the line; reports a break met on the way |
| LineReader.ReadLines | go/jsonutil.go:132-158 | for every limit, buffer size and stream, repeated calls give the lines in order, each whole or reported once as oversized, then the failure for ever |
| LineReader.NthIsExpected | go/jsonutil.go:132-158 | each call gives what the cut into lines specifies |
| LineReader.EndReportedIff | go/jsonutil.go:136-149 | the end of the stream is ever reported exactly if the limit is not negative |
| GoTransport.Subscription.Deliver | go/transport.go:483-496 | appended if there is room, else the overflow is recorded; nothing once closed |
| GoTransport.GoTransport.Subscribe | go/transport.go:302-318 | a new subscription at the end of its route, every other route as it was |
| GoTransport.GoTransport.Correlate | go/transport.go:462-469 | replies to the message go to the subscription; nothing for an empty id |
| GoTransport.GoTransport.Uncorrelate | go/transport.go:472-481 | only the owner's correlation is dropped |
| GoTransport.GoTransport.Unsubscribe | go/transport.go:320-345 | off its route, its empty route out of the table, all its correlations gone: nothing leads to it any more, all else as it was |
| GoTransport.GoTransport.PromoteSession | go/transport.go:243-257 | the session's route promoted, no other touched |
| GoTransport.GoTransport.Dispatch | go/transport.go:206-240 | one subscription gets the frame, by correlation, stream, then session; an acknowledged start promotes it |
| GoTransport.GoTransport.Next | go/transport.go:509-556 | frames in order before anything else; an overflow whenever one is recorded and nothing is queued, and only if a frame was dropped; the terminal error only when nothing was dropped and everything delivered has been read |
| RustRouter.StepKeepsInv | rust/src/transport.rs:97-171 | every step of reader, closers and consumers keeps the router's invariant |
| RustRouter.ErrorComesLast | rust/src/transport.rs:206-245 | in every run, what came out of a queue is a prefix of what was dispatched, and after the closed error all of it, for everyone who registered before the close |
| RustRouter.ErrorIsFinalIff | rust/src/transport.rs:500-560 | whatever happens after a registration, its closed error comes last, exactly if the router was open then or the registration got no route |
| RustRouter.LateRouteFails | rust/src/transport.rs:500-512 | the run that breaks it after a late registration |
| RustSubscription.SharedRouter.Dispatch | rust/src/transport.rs:97-133 | at most one channel gets the frame, by reply, stream, then session; no other changes |
| RustSubscription.SharedRouter.CloseState | rust/src/transport.rs:136-146 | closed, and no channel left on any route |
| RustSubscription.SharedRouter.Unregister | rust/src/transport.rs:153-171 | exactly the keys given are gone |
| RustSubscription.Subscription.Correlate | rust/src/transport.rs:185-195 | nothing once the router is closed |
| RustSubscription.Subscription.Next | rust/src/transport.rs:206-245 | with other tasks at work between its steps: the next frame, or the closed error with everything sent taken and no way in left, or a time-out |
| VtParser.CsiLengthIff | scripts/tui-pty-driver.py:141 | a buffer starts with at most one control sequence in the sense of section 5.4 of ECMA-48, and that one is found |
| VtParser.ParseKeepsBytes | scripts/tui-pty-driver.py:169-247 | the steps and the bytes held back spell what arrived |
| VtParser.RestWaits | scripts/tui-pty-driver.py:176-247 | what is held back can only wait for more |
| VtParser.ChunkingIff | scripts/tui-pty-driver.py:169-247 | every chunking of a stream gives the same steps and the same bytes held back, exactly if no token of it is breakable |
| VtParser.SturdyIsSafe | scripts/tui-pty-driver.py:180-210 | streams without whole designators, control sequences over 65 bytes and strings over 8193 are safe |
| VtTheorems.ApplyKeepsValid | scripts/tui-pty-driver.py:249-379 | every action keeps the screen's size, the cursor and saved cursor on it, and a proper scroll region |
| VtTheorems.AnyChunkingShowsTheSame | scripts/tui-pty-driver.py:169-247 | a safe stream shows the same screen however it arrives |
| VtTheorems.DesignatorSplitShows | scripts/tui-pty-driver.py:208-210 | a designator cut before its last byte makes that byte a glyph |
| VtTheorems.ScrollMovesRegion | scripts/tui-pty-driver.py:268-285 | every scroll, line insertion and deletion moves the lines of the region by one distance, blank in the gap, and changes no other line |
| VtTheorems.HistoryGrows | scripts/tui-pty-driver.py:275-280 | the scrollback grows only at its end, and only with the region at the top; erase mode 3 alone empties it |
| VtTheorems.HistoryGrowsOverRuns | scripts/tui-pty-driver.py:275-280 | so it does over whole runs |
| VtTheorems.ScrollLosesNothing | scripts/tui-pty-driver.py:275-280 | with the whole screen as region, history and screen read on as before, then the new blank lines |
| VtTheorems.TextAppears | scripts/tui-pty-driver.py:249-266 | narrow text that fits stands on the line cell by cell, everything else as before |
| VtEmulator.VtTerminal.constructor | scripts/tui-pty-driver.py:153-167 | a blank screen, the whole of it the region, nothing held back |
| VtEmulator.VtTerminal.ScrollUp | scripts/tui-pty-driver.py:275-280 | the loop of removals and insertions is one shift by at most the region's height |
| VtEmulator.VtTerminal.ScrollDown | scripts/tui-pty-driver.py:282-285 | likewise downwards |
| VtEmulator.VtTerminal.DropLines | scripts/tui-pty-driver.py:371-375 | deleting lines one by one is one shift up |
| VtEmulator.VtTerminal.PushLines | scripts/tui-pty-driver.py:366-370 | inserting lines one by one is one shift down |
| VtEmulator.VtTerminal.Linefeed | scripts/tui-pty-driver.py:268-273 | down a line, or a scroll at the bottom of the region |
| VtEmulator.VtTerminal.PutGlyph | scripts/tui-pty-driver.py:249-266 | combining, wrapping and wide glyphs |
| VtEmulator.VtTerminal.EraseCells | scripts/tui-pty-driver.py:287-290 | exactly the cells of the range on the line are blank |
| VtEmulator.VtTerminal.ControlSequence | scripts/tui-pty-driver.py:292-379 | each control sequence has its closed-form effect; private ones have none |
| VtEmulator.VtTerminal.StringScan | scripts/tui-pty-driver.py:190-200 | the first terminator of a control string, or none |
| VtEmulator.VtTerminal.Step | scripts/tui-pty-driver.py:174-247 | one turn of the byte loop is one step of the parser applied to the screen |
| VtEmulator.VtTerminal.Feed | scripts/tui-pty-driver.py:169-247 | what arrives is parsed with what was held back, the steps applied in order, the rest held back |
| VtEmulator.VtTerminal.FeedAll | scripts/tui-pty-driver.py:445-463 | reads fed one by one show what the whole of a safe stream shows |
| Numerals.OrderPreserved | go/ids.go:30-36 | for numerals of one length the order of strings is the order of numbers |
| Ulid.AlphabetIsCrockfords | go/ids.go:16-18 | the digits are Crockford's, and each reads back as its value |
| Ulid.EncodeBase32 | go/ids.go:63-76 | the characters, read in base 32, give the number the bytes spell |
| Ulid.IncrementRandom | go/ids.go:78-88 | one more in place unless every bit was set; then zero and false |
| Ulid.EncodeTime | go/ids.go:52-59 | ten characters that read as the 48-bit time |
| Ulid.UlidState.NewUlid | go/ids.go:37-61 | the next state, and 26 characters that read as time * 2^80 + randomness |
| Ulid.NewUlidShifting | python/src/makai/_ids.py:33-48 | the single shift loop reads as the same number, so it is the same string |
| Ulid.EncodingKeepsOrder | go/ids.go:30-36 | encodings are equal exactly if their numbers are, and sort as they do |
| Ulid.FirstCharacter | go/ids.go:52-55 | the first character is at most '7' |
| Ulid.NextSortsLaterIff | go/ids.go:33-48 | exactly when the next ULID sorts after the last |
| Ulid.BurstCounts | go/ids.go:33-36 | within a millisecond each call counts one up until 80 bits are full, and then takes its draw |
| ToolBuffers.ToolBuffer.Normalize | go/events.go:209-216 | a fragment changes the buffers, and an end emits the call, as specified |
| ToolBuffers.OthersUnchanged | go/events.go:144-161 | a fragment leaves the other indices' buffers unchanged |
| ToolBuffers.InterleavingIsInvisible | go/events.go:132-163 | a buffer is what its own index's fragments alone make of it |
| ToolBuffers.CallIsItsFragments | rust/src/events.rs:279-305 | the call emitted at an end carries the last start's id and name and all deltas since in order, where the end frame has none |
| ToolBuffers.ImplicitCallIff | go/events.go:209-216 | a start, deltas and an end without indices give the whole call exactly if no call is open at the start, or index 0 holds the same start; in any stream in which no other call takes or gives up index 0 in between, starts without an index being judged by the one they take |
| ToolBuffers.ImplicitCallIsWhole | go/events.go:209-216 | with no call open at the start it is enough that no start in between names index 0 and no end means it: others without an index cannot take it |
| AgentStream.Stream.Next | go/agent.go:167-224 | hands out the next event to come, or ends for good |
| AgentStream.Collect | go/agent.go:167-224 | iterating delivers all that was specified and ends as specified |
| AgentStream.DeliveredShape | go/agent.go:167-224 | a start, made up exactly if the first event is none, then the pumped events in order through the first end, or up to the first failure; nothing if that comes first |
| AgentRuns.BuildResponse | go/payload.go:447-525 | the loops give the last message start's provider and api before the end's, the end's error, its stop reason or else the last message end's, and all turns' usages added up, or else the end's |
| AgentRuns.Run | go/agent.go:39-66 | how `Run` comes out on what is pumped: a result frame is the response, events are put together to one up to the first end, and a response that tells of missing credentials is that failure |
| AgentRuns.RunMeets | go/agent.go:39-66 | what ends `Run` is the first end among all the events: as the frame reports it if a frame settles the run, else with the events through it |
| AgentRuns.FailuresAgreeIff | go/agent.go:180-191 | on every script, exactly when only `Run` fails, when only the stream does, and when both do but not alike |
| AgentRuns.DenialsDiffer | go/provider.go:281-303 | a run that only `Run` fails, and one that only the stream fails |
| AgentRuns.UsagesAgreeIff | go/agent.go:180-222 | on every script on which both end well they report the same usage exactly if: settled by events, the first event is no message end with a usage that is not all zero; settled by a frame, no turn reports a usage or every counter of the frame is the exact sum over the turns, an opening one twice, wrapped to 64 bits |
| AgentRuns.LastTurnIsNotTheSum | go/agent.go:181-185 | for a frame that repeats the last turn's usage that is so exactly if the other turns add up to nothing |
| UsageSums.SumIsExact | go/types.go:179-193 | adding up is the exact sum wrapped to 64 bits |
| UsageSums.SumSaturates | rust/src/types.rs:451-463 | in any grouping a counter is the exact sum cut at 2^64 - 1, reported exactly if some summand reports it |
| UsageSums.SumsAgree | rust/src/types.rs:451-463 | neither grouping nor order matters |
| Content.Assemble | rust/src/events.rs:497-534 | the message shows exactly what the events say, in canonical form |
| Content.MessageIsUnique | go/payload.go:461-489 | there is only one canonical message showing it |
| Content.GoContent | go/payload.go:447-538 | from the last message start on; its text is the concatenation of the text deltas |
| Content.RustContent | rust/src/events.rs:598-620 | from the last message start through the first message end after it |
| Content.ClientsAgreeIff | typescript/src/execution_client.ts:1330-1385 | the clients rebuild the same message exactly if nothing is said after the end of the last message |
| Content.BracketedAgree | typescript/src/execution_client.ts:1330-1336 | so they do on lists that say something only inside messages |
| ModelRef.IsCanonicallyEncoded | go/payload.go:241-260 | accepts exactly unreserved bytes and escapes |
| ModelRef.ValidateEncodedModelId | python/src/makai/_model_ref.py:94-108 | the error code of the first offence, or none |
| ModelRef.PercentDecode | rust/src/execution.rs:174-201 | escapes decoded, other bytes kept; the input itself if the result is no UTF-8 |
| ModelRef.DecodeEncode | zig/src/protocol/model_ref.zig:29-42 | an encoded id is canonical and decodes to the id |
| ModelRef.GoParseIff | go/payload.go:205-239 | the strict parser accepts exactly the canonical spellings and reads them right |
| ModelRef.ParseFormat | zig/src/protocol/model_ref.zig:29-42 | parsing a formatted reference returns the exact triple, in Go, and in Python for ids that are UTF-8 |
| ModelRef.PythonAcceptsIff | python/src/makai/_model_ref.py:42-84 | Python accepts what Go accepts if the id is UTF-8, and reads the same |
| ModelRef.SplittersAgree | rust/src/execution.rs:132-201 | whatever is strictly accepted, both loose splitters cut at the same places and the Rust decoder gives the same id if that is UTF-8, else the id as it is encoded |
| ModelRef.LooseSplittersIff | go/payload.go:277-292 | on any reference, when the loose splitters agree |
| AuthRetry.AgentApi.RunOnce | rust/src/agent.rs:227-368 | the outcome of one attempt and whether it ran a tool; a fresh id if the caller gave none |
| AuthRetry.AgentApi.Run | rust/src/agent.rs:185-225 | exactly when there is a login and a second attempt, under which ids, and the outcome |
| AuthRetry.ToolsAreNotReplayed | rust/src/agent.rs:881-924 | after a tool ran in the first attempt there is no login, whether or not a provider can be named |
| AuthRetry.RunIsBounded | rust/src/provider.rs:313-323 | at most two attempts and one login, the second attempt under an id made up for it; one attempt and no login if a tool ran |

## Left out

- Process spawning, pipes, real timers, logging, JSON and its field-name fallbacks: the models start from decoded frames and events.
- Failing sends and the death of the transport during a session: the session system assumes that sends reach the runtime.
- Idle eviction, and a runtime that rejects a start on a free id: no step of the system does either.
- The pump's execution of tools, and tool results that fail to be produced: they consume no sequence.
- RustSession.AgentSession.Teardown: the drain that follows, which throws away what is left in the queue.
- GoSession.AgentRun.Teardown: likewise the drain after the last stop.
- TypeScriptSession.ActiveAgentSession.StopAgentSession: likewise its drains.
- TypeScriptSession.FrameQueues.DequeueOwnFrame: queued frames do not expire; stream routes, which have queues of the same kind.
- TypeScriptSession.ActiveAgentSession.Take: the step system routes frames as Go and Rust do, by subscription; that TypeScript attempts on one session share a queue is modelled for one read, not for whole runs.
- SessionTheorems.ProbeOutcome: of the Go client only for teardowns that probe; its abort path sends a single stop and is covered by ownership alone.
- GoTransport.GoTransport.Next: frames still queued are handed out before an overflow is reported, as in the code; the wake-up channel is a nondeterministic wake-up.
- RustSubscription.Subscription.Next: covers subscriptions made while the router was open; others are in the step system.
- LineReader.BufferedReader.ReadSlice: stands for the standard library's buffered reader; where a rest exactly fills the buffer both of its answers are allowed.
- VtEmulator.VtTerminal.PutGlyph: the width of a glyph is any function of its bytes into 0, 1 and 2; bytes that are no UTF-8 are glyphs like others, where the driver may raise an error.
- The rendering of rows as text, and the repair of half-overwritten wide glyphs, which the emulator does not attempt.
- Ulid.UlidState.NewUlid: the lock and the fallback when the system has no randomness; NanoIDs.
- Ulid.EncodeBase32: bit operations on bytes are written as arithmetic.
- AgentRuns.BuildResponse: the message and the model id, the former being the subject of the content results.
- ToolBuffers.CallIsItsFragments: tool-call frames that arrive whole, and the normalisation of other event kinds, which keep no state.
- Content.Assemble: the roles, providers and stop reasons around the content.
- ModelRef.PythonAcceptsIff: Python works on characters, the model on their UTF-8 bytes; all separators are ASCII.
- AuthRetry.AgentApi.Run: the streaming form of the retry; what login does.
- Model listing, provider listing, login flows, request validation, error formatting and binary resolution: not modelled, they keep no state.
