# Remote inference transport of the peer: model and proofs

A peer lets others use its language models over libp2p swarms and WebRTC clusters. This project models
the transport between the two ends and proves what it keeps: how a request and its encrypted response
travel, how the response is turned into an event stream for an agent client, and five components whose
state must agree with a simple specification. `dafny verify dfyconfig.toml` checks all of it.

Code that works by changing tables in place is a class or a loop here, proved against a function of the
old state; the properties are lemmas about that function. Code made of expressions is functions. What a
function comes to is also stated without it, on inputs and tables that are written out (`SwarmOutcomes`,
`LineForms`, `AnswerEvents`, `DriverReading`, `CatalogueForms`).

## Modules

| module | models |
|---|---|
| `Options`, `Bags` | optional values, and sequences compared as bags |
| `Text`, `Lines`, `Json`, `JsonReading` | Rust strings with byte offsets, white space trimming, line cutting, JSON values, their compact text and a reader for it |
| `Chunking` | splitting a request body into bounded pieces and putting it together again |
| `Utf8`, `Upstream` | UTF-8 (RFC 3629), and the byte items in which the upstream's text reaches a sender |
| `ChunkSender` | the provider's buffer, cuts, sequence numbers and last-chunk flag |
| `StreamContext`, `SwarmSpec`, `SwarmLifecycle`, `SwarmFrame`, `SwarmManager`, `SwarmOutcomes` | the swarm consumer: queue, in-flight table, reply channels, reorder buffers |
| `EndToEnd`, `ChunkTraffic` | from the provider's text to the caller's lines, and what chunk messages of others can do |
| `ClusterConsumer` | the same response over a cluster data channel |
| `Supersession`, `TaskReplies` | provider tasks that run side by side, fenced by a generation per consumer |
| `ObjectScanner`, `SseTransform`, `SseProperties`, `SseForwarding`, `SseStreams`, `SplitOutcome`, `SseTransformer`, `LineForms`, `AnswerEvents`, `ClientReading` | the agent SSE transformer and its JSON scanner |
| `RemoteDriver`, `DriverReading`, `RemoteProperties`, `ClientMarkers` | the streaming driver, and the whole way to the agent client |
| `Wire` | message sizes on the data channel |
| `Catalogue`, `CatalogueForms`, `Allowance`, `ThermalGuard`, `GossipFit`, `PeerStats`, `Schedule` | the smaller components |

## What the code does that one might not expect

* A sender decodes every item of the upstream's byte stream on its own and drops those that are not
  UTF-8, so a cut inside a character loses the items on both sides of it: `é` in two items is gone, and the
  stream still looks complete. The text sent is whole exactly when every cut is at a character boundary
  (`Upstream.KeptIsWhole`, `ChunkSender.ItemsMakeStream`, `Upstream.SplitCharacterIsLost`), and so are the
  lines the caller gets, except that lost white space of more than one byte may not show in them
  (`EndToEnd.TextArrives`, `Upstream.WideSpaceIsNotMissed`).
* A response whose text leaves nothing for the final flush never gets a chunk marked as the last one. For
  ASCII that is every text whose length is a multiple of 3000 bytes (1024 in a cluster), the empty text
  included. The consumer then keeps its channel open for ever (`ChunkSender.MultiplesHaveNoLastChunk`,
  `EndToEnd.KeptTextArrives`).
* In the swarm sender a chunk that cannot be encrypted vanishes: its number is used again and the stream
  still ends properly, so the consumer cannot notice (`Supersession.EncryptionFailureIsSilent`). No
  other step takes decoded text out of the buffer without sending it (`Supersession.LossIsExact`).
* In a swarm an upstream that refuses is never reported: the request was acknowledged before, no chunk
  follows, and the caller is told neither a line nor an error nor an end
  (`TaskReplies.UpstreamRefusalIsSilent`, `TaskReplies.CallerIsLeftWaiting`).
* An upstream that breaks off is flushed like one that ends: in every run the tasks send the same as if it
  had ended, so its truncated text arrives as a complete stream (`Supersession.BrokenLooksEnded`).
* After a failed send is retried, a chunk of the earlier attempt fails the request at once exactly when its
  number is the next one to read; otherwise it is kept, and fails the request later unless a chunk of the
  present attempt with its number comes first (`EndToEnd.StaleChunkFails`, `EndToEnd.GoodCopyHeals`,
  `EndToEnd.KeptStaleChunkFails`).
* The `done` flag of a chunk is outside the box that is sealed. Whatever chunk messages anyone sends, the
  caller is told a first part of the provider's lines and then at most one error, except that a replayed
  copy of a chunk with its flag set ends the stream there: the caller takes the lines so far, the cut-off
  one included, for the whole answer (`ChunkTraffic.TrafficCannotLie`, `ChunkTraffic.FlaggedReplayEnds`,
  `ChunkTraffic.EarlyEndShows`).
* The tables of the swarm consumer stay a partition exactly as long as answers name the request they
  answer (`SwarmFrame.PartitionNeedsEcho`).
* In a cluster a chunk that comes before the acknowledgement fails the request for good; the swarm
  consumer keeps such chunks (`ClusterConsumer.EarlyChunkFails`).
* In a cluster a chunk that cannot be opened also loses the texts that were opened on the way to it in the
  same call; the swarm consumer tells them (`ClusterConsumer.KeptChunkLosesTexts`,
  `EndToEnd.KeptStaleChunkFails`).
* In a cluster a second acknowledgement starts the stream anew and leaves the caller waiting for chunks it
  has already been told; the swarm consumer ignores it (`ClusterConsumer.SecondAckRestarts`,
  `SwarmOutcomes.StrayAckIsIgnored`).
* In a cluster an upstream that refuses is answered after the acknowledgement. The caller is told the error,
  but its reply channel stays open, and chunks that came after it would still be passed on
  (`ClusterConsumer.ToldInOrder`, `ClusterConsumer.RefusalLeavesOpen`).
* Held-back text that is no tool call is dropped, and a tool call is turned into events: over whole streams
  the content forwarded is the content received exactly when there is no brace in it
  (`SseStreams.TextIsConserved`, `SseStreams.LoneBraceIsDropped`).
* A completion slices its preview of the held-back text at byte 200. When a character lies across that
  byte the slice panics, and the client gets nothing more, not even the end marker. That is exactly when a
  stream aborts (`RemoteProperties.AbortIsExact`); one line with a brace and a hundred characters of two
  bytes is such a stream (`SseStreams.AccentsPanic`, `RemoteProperties.AccentsSendNothing`).
* White space just before the first brace is held back or not according to how the content was split, and
  that moves byte 200. So the same content may be answered in one split and abort the stream in another: a
  blank, a brace and a hundred accents are answered as one piece, and lost when the blank comes in a piece of
  its own (`SplitOutcome.BlankDecides`). The split never shows exactly when the preview goes the same way
  however much of that white space is held back (`SplitOutcome.OutcomeIgnoresSplit`).
* The error text of a failed stream is printed as it is. A line of it that reads as the end marker is one
  more end marker for the client, so an upstream that refuses with such a line gives it two
  (`ClientMarkers.EndMarkers`, `ClientMarkers.ErrorForgesMarker`).
* Which cluster or swarm is the primary one depends on hash-map order exactly when two of them share the
  largest peer count (`Catalogue.PrimaryNeedsNoTie`), and which model becomes the template exactly when the
  first of the richest models of two of them can lead and differ (`Catalogue.TemplateNeedsNoTie`).
* Reusing a request identifier that is in flight makes the live-request count of a peer too large for good
  (`PeerStats.StartIsExact`).
* The time of the next transition is the local date and time read as UTC, so it is right exactly where
  local time is UTC (`Schedule.ReportedTimeIsLocal`). Equal window ends mean an open window, but a transition
  time is reported that never comes (`Schedule.NextTransition`).
* A membership's own time that cannot be read is replaced by nine or five o'clock, not by the default that
  was set (`Schedule.UnreadableIsNotReplaced`).
* A schedule change whose saving fails stays in memory and is never announced
  (`Schedule.NetworkScheduler.ApplySchedules`, `Schedule.ApplyIsIdempotent`).
* A chunk of control characters is too long for the data channel, although its size is within the chunk
  limit (`Wire.ControlCharactersDoNotFit`).

## Model

| member | source | states |
|---|---|---|
| `Text.FloorCharBoundary` | peer/src/cluster_dc_e2ee.rs:72-75 | walking back from a byte offset stops exactly where the longest prefix that fits ends, and on a character boundary |
| `Text.FitIsMaximal` | peer/src/cluster_dc_e2ee.rs:72-75 | the cut is the greatest that fits and leaves at most three bytes of the limit unused |
| `Chunking.ChunkUtf8` | peer/src/cluster_dc_e2ee.rs:68-86 | the guarded loop over byte offsets terminates for every limit, 0 included, with the pieces that the recursive cut gives |
| `Chunking.CeilCharBoundary` | peer/src/cluster_dc_e2ee.rs:76-81 | where nothing fits, the guard takes exactly one whole character |
| `Chunking.ChunksJoin` | peer/src/webrtc_manager.rs:66-84 | for every limit the pieces join to the text again |
| `Chunking.ChunkSizes` | peer/src/webrtc_manager.rs:66-84 | no piece is empty; with a limit of 4 or more each fits and all but the last leave at most three bytes unused; a piece that does not fit is a single character |
| `Chunking.ChunkCount` | peer/src/webrtc_manager.rs:66-84 | a body of n bytes has at most n / (limit - 3) + 1 pieces |
| `Chunking.AssembleAnyOrder` | peer/src/webrtc_manager.rs:2589-2592 | sorting the pieces by number and joining them gives the body for every order of arrival |
| `Chunking.BodySurvivesTraffic` | peer/src/webrtc_manager.rs:2573-2619 | a body sent in pieces has exactly one outcome, in every order and amid any traffic of other requests, and leaves no entry behind; it is dispatched unchanged exactly when every piece opens and the body parses |
| `Chunking.RequestAssembler.OnChunk` | peer/src/cluster_dc_e2ee.rs:276-286 | a chunk is added to the entry of its request, or ignored when there is none |
| `Chunking.RequestAssembler.OnEnd` | peer/src/cluster_dc_e2ee.rs:288-365 | the end removes the entry and opens its chunks in numeric order: refused at the first that does not open, refused when the body does not parse, and dispatched otherwise |
| `Utf8.DecodeEncoded` | peer/src/p2p_proxy.rs:388-388 | decoding the bytes of a text gives the text |
| `Utf8.EncodeDecoded` | peer/src/p2p_proxy.rs:388-388 | only bytes of texts are accepted: overlong forms, surrogates and broken sequences are not |
| `Utf8.SliceIsAccepted` | peer/src/p2p_proxy.rs:388-388 | a slice of a text's bytes is accepted exactly when it is empty or begins and ends at character boundaries, and is then the characters between |
| `Upstream.KeptIsWhole` | peer/src/llm_proxy.rs:280-287 | however the bytes of a text are cut into items, the text kept is the whole exactly when every cut is at a character boundary, and shorter otherwise |
| `Upstream.KeptItem` | peer/src/p2p_proxy.rs:386-390 | exactly the items are kept that are empty or begin and end at character boundaries of the whole text |
| `Upstream.LinesNeedWholeCharacters` | peer/src/p2p_manager.rs:2357-2370 | the non-blank lines of the text kept are those of the whole text exactly when every cut is at a character boundary, where white space is of one byte |
| `Upstream.SplitCharacterIsLost` | peer/src/p2p_proxy.rs:388-390 | a two-byte character that arrives in two items is gone, whatever stands around it |
| `Upstream.WideSpaceIsNotMissed` | peer/src/p2p_manager.rs:2360-2362 | a wide space cut in two is lost without a difference in the lines |
| `ChunkSender.CutIndex` | peer/src/p2p_proxy.rs:519-529 | a full buffer is cut at the last boundary within the limit, a shorter one is taken whole at the end and otherwise left |
| `ChunkSender.ResponseSender.FlushPending` | peer/src/p2p_proxy.rs:505-574 | the flush loop leaves the buffer, the next number and the chunks sent that the recursive flush gives |
| `ChunkSender.ResponseSender.OnUpstream` | peer/src/p2p_proxy.rs:386-418 | an upstream item that is a text is appended and flushed; one that is not is dropped |
| `ChunkSender.ResponseSender.Respond` | peer/src/cluster_dc_e2ee.rs:791-842 | a whole response puts on the wire the chunks that sending its byte items one after the other gives |
| `ChunkSender.ItemsMakeStream` | peer/src/cluster_dc_e2ee.rs:791-806 | for both senders and every cutting into byte items the chunks are the stream of the text kept, and carry the whole text exactly when every cut is at a character boundary |
| `ChunkSender.SplitDoesNotMatter` | peer/src/p2p_proxy.rs:488-575 | numbers, cuts and flags depend on the decoded text alone, not on the items it came in |
| `ChunkSender.StreamShape` | peer/src/cluster_dc_e2ee.rs:498-561 | numbers 0..n-1 without gaps, non-empty chunks within the limit, nothing lost, and a flag on the last chunk only, exactly when text was left for the final flush |
| `ChunkSender.AsciiResidue` | peer/src/p2p_proxy.rs:516-529 | for ASCII the final flush finds nothing exactly when the length is a multiple of the chunk size |
| `ChunkSender.MultiplesHaveNoLastChunk` | peer/src/p2p_proxy.rs:516-529 | so an ASCII response has no marked chunk exactly when its length is a multiple of 3000 in a swarm, and of 1024 in a cluster |
| `Lines.DrainLines` | peer/src/p2p_manager.rs:2357-2363 | taking lines off the buffer one by one gives its complete lines and what follows the last line feed |
| `Lines.CutKeepsText` | peer/src/p2p_manager.rs:2357-2363 | lines and rest make up the text, and the rest has no line feed |
| `Lines.CutResumes` | peer/src/p2p_manager.rs:2356-2370 | keeping only the unfinished line between two chunks gives the lines of both together |
| `Lines.JoinedLinesComeApart` | peer/src/llm_proxy.rs:817-819 | lines that are joined and cut again are the same lines |
| `Lines.EachLineIsGiven` | peer/src/p2p_manager.rs:2357-2386 | a finished text gives each of its lines that is not all white space, whole and in order, the last one with a line feed if it had none |
| `StreamContext.DrainReadsUpToGap` | peer/src/p2p_manager.rs:2305-2428 | draining reads exactly up to the first missing chunk, sends the lines in between, never fails on a provider's chunks, and finishes exactly when it passes the marked last one |
| `StreamContext.DrainFailsAt` | peer/src/p2p_manager.rs:2305-2345 | a chunk that cannot be opened is where draining fails, after the lines of all chunks before it |
| `SwarmManager.Manager.SendOutboundProxy` | peer/src/p2p_manager.rs:2159-2249 | all tables after a send attempt, on every path: not connected, no room, no key, no encryption, sent |
| `SwarmManager.Manager.HandleProxyCmd` | peer/src/p2p_manager.rs:2089-2157 | all tables after a command, on every path |
| `SwarmManager.Manager.DrainEncryptedStreamChunks` | peer/src/p2p_manager.rs:2294-2428 | all tables and replies after the drain loop |
| `SwarmManager.Manager.HandleEncryptedStreamChunk` | peer/src/p2p_manager.rs:2251-2292 | a chunk is ignored without a channel, reordered in an open stream, and kept for later before the acknowledgement |
| `SwarmManager.Manager.HandleResponse` | peer/src/p2p_manager.rs:1700-1901 | all tables and replies after an answer, on every path; what is told of a body, and every failure, is stated without the step function by `SwarmOutcomes.WholeBodyIsTold` and `SwarmOutcomes.FailureIsTold` |
| `SwarmManager.Manager.HandleProxyOutboundFailure` | peer/src/p2p_manager.rs:2523-2558 | a failed send is tried again, queued again or reported; when, is `SwarmOutcomes.FailureOutcome` |
| `SwarmManager.Manager.FlushPendingProxiesForPeer` | peer/src/p2p_manager.rs:2490-2514 | the walk over the shrinking queue terminates and does what sending every ready request in order does |
| `SwarmManager.FlushLeavesOthers` | peer/src/p2p_manager.rs:2490-2514 | afterwards the queue is exactly the requests for other links, and none for this one |
| `SwarmOutcomes.SendAttempts` | peer/src/p2p_manager.rs:2159-2249 | on the tables: an attempt to send waits for a link, goes out as it is, or is sealed with the provider's key and a secret of its own; without a room, a key or an encryption that works it is refused by that cause |
| `SwarmOutcomes.CommandOutcome` | peer/src/p2p_manager.rs:2089-2157 | a command gets the next id; without a link it waits exactly if the provider has an address, and is refused otherwise; it is sealed exactly when that is enabled and a room is known |
| `SwarmOutcomes.FailureOutcome` | peer/src/p2p_manager.rs:2523-2558 | a failed send is tried again exactly when the failure is of the link and fewer than eight attempts failed before: at once where the link is up, else from the queue, with one attempt more; any other failure closes the channel with one error and changes no count |
| `SwarmOutcomes.NineAttempts` | peer/src/p2p_manager.rs:2538-2558 | a plain request whose sends keep failing goes out nine times; its caller is told nothing until then, and exactly one error after the ninth |
| `SwarmOutcomes.LinkOutcome` | peer/src/p2p_manager.rs:2490-2514 | when a link comes up the requests for it are attempted one after the other in the order of the queue, and the others stay in theirs |
| `SwarmOutcomes.AckOutcome` | peer/src/p2p_manager.rs:1757-1836 | an acknowledgement opens a stream with the key of this attempt and takes over the chunks that came before, which are read at once if the first is among them |
| `SwarmOutcomes.StrayAckIsIgnored` | peer/src/p2p_manager.rs:1757-1764 | an acknowledgement of nothing in flight, a second one for instance, changes nothing |
| `SwarmOutcomes.LaterCopyReplaces` | peer/src/p2p_manager.rs:2276-2291 | before the acknowledgement a later copy of a chunk replaces an earlier one |
| `SwarmOutcomes.EndedStreamIsForgotten` | peer/src/p2p_manager.rs:2372-2427 | a stream that ends leaves neither context nor early chunks behind |
| `SwarmOutcomes.WholeBodyIsTold` | peer/src/p2p_manager.rs:1727-1735 | a body, plain or opened from its box, is told as its texts that are not empty, one by one with a line feed, on a channel that is then closed; carriage returns before line feeds, empty lines and a missing last line feed change nothing |
| `SwarmOutcomes.EachLineIsTold` | peer/src/p2p_manager.rs:1862-1870 | text by text: reply number i is the text of row i and a line feed |
| `SwarmOutcomes.FailureIsTold` | peer/src/p2p_manager.rs:1713-1893 | the provider's error is told in its own words, and an answer that cannot be read by its cause; both close the channel; an answer nobody waits for changes only the in-flight table |
| `SwarmLifecycle.OthersStayInOrder` | peer/src/p2p_manager.rs:2498-2513 | the requests that stay keep their order, and none of them is lost |
| `SwarmLifecycle.NoneReadyIsLeft` | peer/src/p2p_manager.rs:2498-2513 | no request that stays is for the connected link |
| `SwarmLifecycle.CommandKeeps` | peer/src/p2p_manager.rs:2089-2157 | a command keeps the invariant |
| `SwarmLifecycle.ResponseKeeps` | peer/src/p2p_manager.rs:1700-1901 | an answer keeps the invariant |
| `SwarmLifecycle.ChunkKeeps` | peer/src/p2p_manager.rs:2251-2292 | any chunk from anyone keeps the invariant |
| `SwarmLifecycle.FailureKeeps` | peer/src/p2p_manager.rs:2523-2558 | a failed send keeps the invariant |
| `SwarmLifecycle.ConnectedKeeps` | peer/src/p2p_manager.rs:2490-2514 | flushing the queue keeps the invariant |
| `SwarmLifecycle.EveryRunKeeps` | peer/src/p2p_manager.rs:597-650 | in every reachable state the open channels are the disjoint union of queued, in-flight and streaming requests; every reply trace is Ok* and then at most one Err; no request was sent more than nine times |
| `SwarmLifecycle.StartIsFine` | peer/src/p2p_manager.rs:382-393 | the empty tables satisfy the invariant |
| `SwarmFrame.StepFrame` | peer/src/p2p_manager.rs:597-650 | an event about other requests leaves a request's channel, replies, stream and early chunks as they were |
| `SwarmFrame.ClosedForever` | peer/src/p2p_manager.rs:2374-2427 | once its channel is closed a request is never told anything again, in any run |
| `SwarmFrame.PartitionNeedsEcho` | peer/src/p2p_manager.rs:1700-1901 | an answer keeps the partition exactly when it names the request it answers |
| `EndToEnd.CommandBegins` | peer/src/p2p_manager.rs:2159-2249 | a command for a reachable provider starts an exchange with nothing told and nothing arrived |
| `EndToEnd.ToldInAnyOrder` | peer/src/p2p_manager.rs:2251-2428 | for every order and number of copies of acknowledgement and chunks, amid any other traffic: nothing before the acknowledgement, then the non-blank lines up to the first missing chunk, and all lines on a closed channel once a marked stream is complete |
| `EndToEnd.DeliveredIsPrefix` | peer/src/p2p_manager.rs:2356-2386 | what was delivered on the way is a prefix of all lines of the text |
| `EndToEnd.KeptTextArrives` | peer/src/p2p_proxy.rs:367-446 | whatever the items and the arrival order, the caller gets the lines of the text kept: all of them on a closed channel exactly when text was left for the final flush |
| `EndToEnd.TextArrives` | peer/src/p2p_proxy.rs:367-446 | for every cutting of the text's bytes and every arrival order: the caller gets every line of the text on a closed channel if no cut is inside a character and text was left for the final flush, and only if so where white space is of one byte |
| `EndToEnd.EachLineArrives` | peer/src/p2p_proxy.rs:367-446 | line by line: when nothing is lost the caller has each line of the provider's text that is not all white space, whole and in order, on a closed channel |
| `EndToEnd.NeverWrong` | peer/src/p2p_proxy.rs:371-384 | whatever becomes of the provider's task, the caller is told only a first part of the lines of the text it decoded |
| `ChunkTraffic.TrafficCannotLie` | peer/src/p2p_manager.rs:2251-2428 | whatever chunk messages anyone sends, if a box that opens holds the provider's text of that number: the caller is told a first part of the provider's lines and then at most one error; or a copy of a chunk with its flag set ended the stream early, and it is told exactly the lines of the text up to there |
| `ChunkTraffic.HonestFlagsHonestLines` | peer/src/p2p_manager.rs:2372-2386 | as long as only the last chunk comes with the flag, never anything but a first part of the lines and then at most one error |
| `ChunkTraffic.FlaggedReplayEnds` | peer/src/proxy_e2ee.rs:144-167 | a replayed copy of the next chunk with its flag set closes the channel on the lines up to there |
| `ChunkTraffic.EarlyEndShows` | peer/src/p2p_manager.rs:2356-2386 | the lines of an early end are a first part of all lines exactly where the text up to there ends with a line or white space, or a line feed or nothing follows |
| `EndToEnd.StaleChunkFails` | peer/src/p2p_manager.rs:2294-2345 | a chunk of an earlier attempt fails the request at once exactly when it has the number read next, and is otherwise kept in silence |
| `EndToEnd.GoodCopyHeals` | peer/src/p2p_manager.rs:2276-2282 | a kept one is replaced without trace by a chunk of the present attempt |
| `EndToEnd.KeptStaleChunkFails` | peer/src/p2p_manager.rs:2305-2345 | when its turn comes a kept one fails the request; the caller has the lines before it |
| `ClusterConsumer.PendingEncryptedStream.HandleChunk` | peer/src/cluster_dc_e2ee.rs:376-467 | inserting a chunk and taking chunks while the next number is there: the parts, the stream left, or the failure |
| `ClusterConsumer.TakeReadsUpToGap` | peer/src/cluster_dc_e2ee.rs:403-460 | the loop takes exactly the chunks up to the first missing one |
| `ClusterConsumer.ToldInOrder` | peer/src/webrtc_manager.rs:2344-2530 | once acknowledged, for every order and number of copies of the chunks and whatever other answers, errors or bodies, come in between: the caller is told the texts up to the first missing chunk and, where it came, what the first other answer says; the channel is closed exactly when a marked stream is complete, and by no answer |
| `ClusterConsumer.RefusalLeavesOpen` | peer/src/webrtc_manager.rs:2361-2385 | an error after the acknowledgement, as every refused upstream gives it, is told once, and the reply channel stays open whatever answers follow |
| `ClusterConsumer.EarlyChunkFails` | peer/src/cluster_dc_e2ee.rs:387-389 | a chunk that comes first fails the request for good; after an acknowledgement copies of the chunks never fail; any other answer that comes first is told first |
| `ClusterConsumer.SecondAckRestarts` | peer/src/webrtc_manager.rs:2351-2359 | a second acknowledgement starts the stream anew: chunks that come then wait for those before them to come once more |
| `ClusterConsumer.FirstAnswerIsTold` | peer/src/webrtc_manager.rs:2361-2385 | without an acknowledgement a body sealed for this request is told whole and in one piece, any other is an error, a refusal too; later answers are not looked at |
| `ClusterConsumer.UnopenedChunkFails` | peer/src/cluster_dc_e2ee.rs:403-460 | a chunk that cannot be opened fails the request at once exactly if it has the number read next, and is otherwise kept in silence |
| `ClusterConsumer.KeptChunkLosesTexts` | peer/src/cluster_dc_e2ee.rs:403-460 | when its turn comes a kept one fails the request, and the texts opened before it in the same call are not told |
| `Supersession.ProxySlots.Claim` | peer/src/p2p_proxy.rs:31-44 | a claim gives a generation above all earlier ones of the consumer and leaves other consumers alone |
| `Supersession.ProxySlots.StillActive` | peer/src/p2p_proxy.rs:46-58 | active means that request and generation are those of the slot |
| `Supersession.RunKeepsGenerations` | peer/src/p2p_proxy.rs:31-44 | over every interleaving the generation of a slot never falls and no two tasks of a consumer share one |
| `Supersession.ClaimSupersedes` | peer/src/p2p_proxy.rs:260-267 | in every reachable state a claim makes its task active and supersedes every other task of the consumer |
| `Supersession.AtMostOneActive` | peer/src/p2p_proxy.rs:46-58 | in every reachable state a consumer has at most one active task |
| `Supersession.SupersededForever` | peer/src/p2p_proxy.rs:369-384 | a superseded task never becomes active again, reads nothing more, and sends at most the one message for which it had already looked |
| `Supersession.SentIsPrefix` | peer/src/p2p_proxy.rs:505-574 | over every interleaving what a task has sent is a prefix of the stream of the text it decoded, and all of it when it finishes while active |
| `Supersession.LossIsExact` | peer/src/p2p_proxy.rs:533-574 | in every reachable state, superseded tasks included, the text decoded is the text sent followed by the text buffered, exactly as long as every chunk could be encrypted |
| `Supersession.BrokenLooksEnded` | peer/src/p2p_proxy.rs:386-446 | in every run, replacing each upstream failure by a proper end changes nothing |
| `Supersession.EncryptionFailureIsSilent` | peer/src/p2p_proxy.rs:548-574 | a run that loses its first chunk to encryption sends the complete stream of the rest, last chunk marked |
| `TaskReplies.AnsweredOnce` | peer/src/p2p_proxy.rs:269-330 | in every reachable state a task has answered at most once, reads and sends nothing before its answer, and has answered exactly once when it is past it with its slot still its own |
| `TaskReplies.LastMessageStillGoes` | peer/src/p2p_proxy.rs:505-563 | in every reachable state a claim between looking and sending supersedes the older task, and its message goes out all the same |
| `TaskReplies.RefusedForever` | peer/src/p2p_proxy.rs:283-318 | for a refused request nothing is ever read and no chunk sent, in any run |
| `TaskReplies.UpstreamRefusalIsSilent` | peer/src/p2p_proxy.rs:463-466 | a task whose upstream refuses has acknowledged the request and sends nothing more |
| `TaskReplies.CallerIsLeftWaiting` | peer/src/p2p_manager.rs:1757-1836 | its caller is told nothing, and the channel stays open whatever happens to other requests |
| `ObjectScanner.ExtractBalancedJsonObject` | peer/src/agent_compat.rs:623-664 | the loop returns what the recursive scanner does; its rejection of a brace at depth zero is never reached |
| `ObjectScanner.ExtractIsShortestBalanced` | peer/src/agent_compat.rs:623-664 | the answer is the shortest balanced prefix of the trimmed text, and there is one exactly when the text opens with a brace and some prefix is balanced |
| `ObjectScanner.ObjectsDelimitThemselves` | peer/src/agent_compat.rs:597-618 | for every object value, all nesting and escapes, its serialised text followed by any text is found again exactly |
| `SseTransformer.SseTransformState.CaptureStreamMeta` | peer/src/agent_compat.rs:1009-1022 | identifier, model and time are taken over until an identifier is known |
| `SseTransformer.SseTransformState.ProcessLine` | peer/src/agent_compat.rs:1039-1121 | the new state and the lines sent, on every path, a panic in completion included; the recursion with the flush terminates. What is sent on is stated without the step function by `SseForwarding.OthersPassThrough`, `SseForwarding.WithoutBraceAllPass` and the lemmas of `LineForms` |
| `SseTransformer.SseTransformState.FlushOnStreamEnd` | peer/src/agent_compat.rs:1124-1130 | processing the made-up stop chunk is completing |
| `SseTransformer.SseTransformState.FinalizeStream` | peer/src/agent_compat.rs:1134-1141 | the end marker is added exactly when it was not sent before, unless completion panics |
| `SseTransformer.SseTransformState.CompleteSuppressed` | peer/src/agent_compat.rs:1143-1169 | the new state and the lines sent, with and without tool calls, and the abort when the preview of 200 bytes (lines 866-872) ends inside a character |
| `SseTransformer.SyntheticCompletes` | peer/src/agent_compat.rs:1124-1130 | the made-up chunk reads as a stop, changes no metadata and completes |
| `SseProperties.NormalizeIsStable` | peer/src/agent_compat.rs:958-977 | a line that was normalised is its own normal form |
| `SseProperties.CutChunkContent` | peer/src/agent_compat.rs:1090-1100 | the chunk cut at a brace carries exactly the text before it |
| `SseProperties.LineIsConserved` | peer/src/agent_compat.rs:1039-1121 | held-back text followed by the content of a line is what is forwarded followed by what is held back then; nothing forwarded has a brace. Content in a chunk that also carries tool calls counts on neither side; such a chunk is sent on whole (`SseForwarding.OthersPassThrough`) |
| `SseProperties.ContentIsConserved` | peer/src/agent_compat.rs:1082-1121 | up to the first completion, forwarded text followed by held-back text is all content received; content of chunks with tool calls counts on neither side |
| `SseProperties.DecisionIgnoresSplit` | peer/src/agent_compat.rs:575-605 | two streams of the same content, split and interleaved differently, hold back the same text but for white space before it, and the same tool calls are found in it; whether they are sent is `SplitOutcome.OutcomeIgnoresSplit` |
| `SseProperties.LineKeepsHolds` | peer/src/agent_compat.rs:1082-1169 | suppression is on exactly when something is held back, and that opens with a brace; a line aborts the stream exactly when it completes text that the preview cannot be cut from |
| `SseProperties.ToolCallIsFound` | peer/src/agent_compat.rs:575-621 | a tool call after prose, or none, and before other text is found with its name and arguments |
| `SseProperties.MarkersMatch` | peer/src/agent_compat.rs:1044-1048 | a line sent reads as the end marker only if it is the marker; there is one for a done line unless completing aborts, and none for any other |
| `SseForwarding.OthersPassThrough` | peer/src/agent_compat.rs:1039-1121 | up to the first completion every message without text is sent on whole, once and in its place: lines that are no data, payloads that do not parse, chunks without a choice or text, chunks with tool calls, end markers |
| `SseForwarding.WithoutBraceAllPass` | peer/src/agent_compat.rs:1039-1121 | as long as no text has a brace, the messages sent are the messages received |
| `SseForwarding.CallsPassThrough` | peer/src/agent_compat.rs:1064-1080 | up to the first completion the calls a client reads are those it would read from the upstream's own lines, through either interface |
| `LineForms.DataForm` | peer/src/agent_compat.rs:958-977 | a line that begins with `data:` is data or the end marker, whatever white space is around it and its payload |
| `LineForms.BareDoneForm` | peer/src/agent_compat.rs:963-965 | the marker without a prefix is an end marker |
| `LineForms.OtherForm` | peer/src/agent_compat.rs:973-977 | any other line is data exactly when it begins with a brace and has the word `"choices"` in it |
| `LineForms.PassedForm` | peer/src/agent_compat.rs:1039-1062 | a line that is no data is sent as it is; data that does not parse, has no choice or is plain text is sent behind `data: `, whatever its line looked like |
| `LineForms.StopForm` | peer/src/agent_compat.rs:1109-1118 | a chunk without text and calls completes exactly when its reason is `stop` or `length` and something is held back |
| `LineForms.UpstreamCallsPass` | peer/src/agent_compat.rs:1064-1080 | an upstream's own tool calls are sent on as they are, and change nothing that is held back |
| `LineForms.WrittenCallIsFound` | peer/src/agent_compat.rs:697-714 | a written call is found with its name, its arguments as text or as their JSON, `{}` without any, and the next identifier |
| `LineForms.UnnamedIsNoCall` | peer/src/agent_compat.rs:666-691 | an object without a name is no call |
| `LineForms.ListIsFound` | peer/src/agent_compat.rs:672-690 | a list of calls gives one for each item with a name: its index is its place, its identifier the next one |
| `LineForms.FencedCallIsFound` | peer/src/agent_compat.rs:584-595 | a call between fences is found, with a language tag or without |
| `AnswerEvents.MetaByHistory` | peer/src/agent_compat.rs:1009-1022 | over every stream that does not abort: the identifier is that of the first chunk that has one, model and time are the last ones until then |
| `AnswerEvents.ChatAnswerShape` | peer/src/agent_compat.rs:716-794 | an answer with calls: the role first, then only increments of calls, one event that finishes with `tool_calls` last, all with the identifier, model and time of the stream |
| `AnswerEvents.StopShape` | peer/src/agent_compat.rs:1157-1168 | an answer without calls is one event without text that stops |
| `AnswerEvents.ResponseAnswerShape` | peer/src/agent_compat.rs:796-849 | in a response each call is announced at its place and then delivered, in order |
| `AnswerEvents.ResponseListsCalls` | peer/src/agent_compat.rs:841-863 | its last event lists all calls again, completed |
| `AnswerEvents.EachDrawsItsOwn` | peer/src/agent_compat.rs:697-714 | every call and every response takes an identifier of its own |
| `AnswerEvents.CompletionIsNoted` | peer/src/agent_compat.rs:1143-1169 | what is noted of a completion: whether it found calls, and how it ended |
| `JsonReading.ParseInverts` | peer/src/agent_compat.rs:697-702 | the compact text of a value reads back as that value, and followed by anything else it does not |
| `SplitOutcome.OutcomeIgnoresSplit` | peer/src/agent_compat.rs:1082-1169 | every two streams of a content send the same for a stop and at the end, but for metadata, and abort both or neither, exactly when there is no brace in it or the preview goes the same way however much of the white space before the first brace is held back |
| `SplitOutcome.SplitShowsInPanic` | peer/src/agent_compat.rs:1143-1169 | two given streams of the same content end alike, calls and all, exactly unless the preview panics in one of them only |
| `SplitOutcome.HeldIsSuffix` | peer/src/agent_compat.rs:1082-1108 | however it was split, a content is held back from its first brace on, with some of the white space before it |
| `SplitOutcome.BlankDecides` | peer/src/agent_compat.rs:866-872 | a blank, a brace and a hundred or more accents: answered with the end marker last as one piece; with the blank in a piece of its own, that piece is all the client gets |
| `SseStreams.TextIsConserved` | peer/src/agent_compat.rs:1039-1169 | over a whole stream, completions and end included, the content forwarded is the content received exactly when no brace is received; content of chunks with tool calls counts on neither side |
| `SseStreams.WithoutBraceIsDirect` | peer/src/agent_compat.rs:1039-1141 | and then a client reads what it would read from the upstream itself, with an end marker added exactly if none was sent |
| `SseStreams.LoneBraceIsDropped` | peer/src/agent_compat.rs:1157-1169 | a stream whose only text is a lone brace is answered by a stop and the end marker; the text is gone |
| `SseStreams.AccentsPanic` | peer/src/agent_compat.rs:866-872 | a brace followed by a hundred or more two-byte characters has no boundary at byte 200 |
| `SseStreams.HeldCallIsFound` | peer/src/agent_compat.rs:575-621 | the call in held-back text is found, with white space before it or not and with text after it |
| `SseStreams.CallIsHeld` | peer/src/agent_compat.rs:1082-1121 | when prose, a call and trailing text come split into chunks anywhere and among any other lines, the client has the prose, but perhaps for white space at its end, and the call is held back whole |
| `SseStreams.CallReachesClient` | peer/src/agent_compat.rs:1044-1169 | the line that stops the stream then gives the client exactly that call, in either interface, after the calls that the upstream's own lines carry, when calls are told apart by identifier (`ClientReading.ReadCall`), and no text; nothing at all exactly when the preview panics |
| `SseStreams.CallReachesClientAtEnd` | peer/src/agent_compat.rs:1124-1169 | the same when the stream just ends, for the same reading by identifier |
| `ClientReading.ClientSeesCalls` | peer/src/agent_compat.rs:716-794 | a client that begins a call at every identifier and puts the increments together has exactly the calls found, with identifier, name and arguments, after those it had |
| `ClientReading.ResponsesClientSeesCalls` | peer/src/agent_compat.rs:796-864 | so has a client of the responses interface |
| `RemoteDriver.ForwardLine` | peer/src/llm_proxy.rs:820-829 | one line is rewritten and sent, and the end marker is noticed exactly when the line is one |
| `RemoteDriver.DrainBuffer` | peer/src/llm_proxy.rs:818-830 | the inner loop rewrites exactly the complete lines of the buffer |
| `RemoteDriver.ReadAll` | peer/src/llm_proxy.rs:814-837 | the receive loop stops at the first failure and has then folded over all lines received |
| `RemoteDriver.FinishStream` | peer/src/llm_proxy.rs:838-852 | the unterminated tail is rewritten, and the stream is finalised; that a tail counts like a line is `DriverReading.TailCounts` |
| `RemoteDriver.ForwardRemote` | peer/src/llm_proxy.rs:810-852 | for every split of the text the output is that of folding over the lines of the whole text and finalising, cut off where the stream aborts; what that output is, is stated by the lemmas of `DriverReading` |
| `DriverReading.TailCounts` | peer/src/llm_proxy.rs:838-849 | a text whose last line is not blank gives the same with and without its last line feed |
| `DriverReading.BlankTailIsNothing` | peer/src/llm_proxy.rs:838-838 | a blank tail gives nothing |
| `DriverReading.LinesDecide` | peer/src/llm_proxy.rs:818-849 | white space at the ends of lines makes no difference |
| `DriverReading.FailureComesBetween` | peer/src/llm_proxy.rs:830-836 | a failure is printed between what the complete lines gave and what is sent for the tail and the end, and changes neither |
| `DriverReading.BodyIsRead` | peer/src/llm_proxy.rs:828-829 | whoever cuts the body into lines and reads them reads exactly the messages sent |
| `DriverReading.ClientReadsUpstream` | peer/src/llm_proxy.rs:810-852 | as long as no text has a brace the client reads in its body, message by message, what the upstream sent, the unterminated last line included, and one end marker if there was none |
| `DriverReading.OnlyATail` | peer/src/llm_proxy.rs:838-852 | a single chunk without a line feed reaches the client |
| `ClientMarkers.EndMarkers` | peer/src/llm_proxy.rs:814-852 | counted in the lines of the whole body: unless the stream aborts, the client reads as many end markers as the upstream sent, but at least one, and as many more as lines of the error text read as one, so exactly as many if and only if none does; where the upstream sent none, ours comes last; if it aborts, those answered until then |
| `ClientMarkers.ForgedMarkers` | peer/src/llm_proxy.rs:832-834 | an error text adds a marker for every line of the message that reads as one, except its first line and its unterminated last one |
| `ClientMarkers.ErrorForgesMarker` | peer/src/llm_proxy.rs:267-271 | a refusal that has the marker on a line of its own: the client reads two, although nothing was streamed |
| `RemoteProperties.AbortIsExact` | peer/src/agent_compat.rs:866-872 | a stream aborts exactly when some completion, by a line or at the end, meets more than 200 bytes of held-back text with a character across byte 200 |
| `RemoteProperties.AccentsSendNothing` | peer/src/agent_compat.rs:1157-1169 | one line with such a text: the client is sent nothing |
| `RemoteProperties.NothingHeldBack` | peer/src/llm_proxy.rs:850-852 | whatever the stream was, nothing stays suppressed, and no text stays held back exactly unless the stream aborted |
| `RemoteProperties.ClientGetsText` | peer/src/llm_proxy.rs:810-852 | the agent client gets what rewriting the non-blank lines of the text kept gives, for every cutting of the bytes, arrival order and other traffic; the text kept is the provider's exactly when no cut is inside a character |
| `RemoteProperties.ClusterClientGetsText` | peer/src/webrtc_manager.rs:2387-2530 | over a cluster it gets what rewriting the text kept at once gives, and its driver reads the provider's text exactly when no cut is inside a character |
| `Wire.StreamChunksFit` | peer/src/cluster_dc_e2ee.rs:94-105 | every encrypted response chunk fits in 8192 bytes, for every nonce and ciphertext, exactly for request identifiers of at most 3863 escaped bytes |
| `Wire.RequestChunkFits` | peer/src/cluster_dc_e2ee.rs:165-184 | so does every encrypted request chunk |
| `Wire.ShortIdsFit` | peer/src/cluster_dc_e2ee.rs:18-21 | an identifier of up to 643 bytes leaves room for every chunk |
| `Wire.RequestBodiesFit` | peer/src/webrtc_manager.rs:100-140 | every chunk of every request body fits |
| `Wire.ResponseChunksFit` | peer/src/webrtc_manager.rs:146-162 | every chunk of a response text without six-byte escapes fits |
| `Wire.PlainResponseFits` | peer/src/webrtc_manager.rs:86-97 | a response chunk fits exactly when identifier and text take at most 8140 escaped bytes |
| `Wire.ControlCharactersDoNotFit` | peer/src/webrtc_manager.rs:86-97 | a chunk of 1357 or more control characters does not fit |
| `Catalogue.MergePeerEntries` | peer/src/network_catalog.rs:126-134 | the loop over the peers of a listing |
| `Catalogue.MergedPeer` | peer/src/network_catalog.rs:64-80 | merging keeps the identifier, and the result is loaded exactly when one of the two was |
| `Catalogue.SyncUnifiedNetworkModels` | peer/src/network_catalog.rs:96-176 | for every iteration order: the names listed, the union of the peers, loaded exactly when some listing says so, a template of the highest score, and all entries |
| `Catalogue.OrderDoesNotMatter` | peer/src/network_catalog.rs:96-186 | two orders of the same listings give the same names, peers, loaded flags, counts, entries but for their order, and score of the template |
| `Catalogue.TemplateNeedsNoTie` | peer/src/network_catalog.rs:96-176 | the template is the same in every order in which the hash maps yield whole clusters and whole swarms exactly when only one model can lead: a richest one that is the first of these in its cluster, or in its swarm where no cluster has one |
| `Catalogue.OwnTieIsHarmless` | peer/src/network_catalog.rs:100-101 | a single cluster leaves no choice, however often it lists the name |
| `Catalogue.CountLoaded` | peer/src/network_catalog.rs:182-186 | the loaded count is the number of loaded peers, in every order |
| `Catalogue.Representative` | peer/src/network_catalog.rs:187-193 | a loaded peer if there is one, else any, else null |
| `Catalogue.PrimaryNeedsNoTie` | peer/src/network_catalog.rs:196-205 | the primary scope is the same in every order exactly when no two scopes share the largest count |
| `CatalogueForms.FirstLoadedIsKept` | peer/src/network_catalog.rs:64-80 | whatever is merged, the entry kept for a peer is its first loaded one, and if none is loaded its first |
| `CatalogueForms.PeersForm` | peer/src/network_catalog.rs:7-17 | a list of peers comes before a single peer, and null is none |
| `CatalogueForms.CountsForm` | peer/src/network_catalog.rs:108-119 | the counts of a listing; 1 and 0 stand for missing ones |
| `CatalogueForms.ScoreForm` | peer/src/network_catalog.rs:25-54 | what each part of the metadata counts |
| `Allowance.ConnectionAllowanceStore.GrantFor` | peer/src/connect_allowance.rs:25-35 | expired allowances go, and the new one replaces any of its identifier |
| `Allowance.ConnectionAllowanceStore.ValidateAndConsume` | peer/src/connect_allowance.rs:37-51 | the allowance is gone after any attempt, and the model is given to the right peer in time |
| `Allowance.OfferAdmission.HandleOffer` | peer/src/webrtc_manager.rs:2019-2050 | an offer from a peer that is not allowed or without an identifier touches nothing; an admitted one records its model |
| `Allowance.StoreReflectsHistory` | peer/src/connect_allowance.rs:25-56 | over every history an identifier is in the store exactly when the last event about it was a grant that had not expired at any removal since, and with what was granted |
| `Allowance.AdmittedByHistory` | peer/src/connect_allowance.rs:25-56 | an offer is admitted with a model exactly when the last event about its identifier is an unexpired grant of that model to that peer |
| `Allowance.OneSessionPerGrant` | peer/src/webrtc_manager.rs:2030-2050 | over any history an identifier admits no more sessions than it was granted |
| `ThermalGuard.MaxTemp` | peer/src/gpu_thermal_guard.rs:16-26 | the hottest of the readings, none exactly when there are none |
| `ThermalGuard.GpuThermalGuardTracker.EvaluateSample` | peer/src/gpu_thermal_guard.rs:28-100 | the new state and the action taken, on every path |
| `ThermalGuard.ActionsAlternate` | peer/src/gpu_thermal_guard.rs:59-91 | over every history pauses and resumes alternate, beginning with a pause |
| `ThermalGuard.TimerFollowsSpell` | peer/src/gpu_thermal_guard.rs:43-99 | over every history, while the guard has not paused, its timer and peak are those of the hot spell at the end |
| `ThermalGuard.PauseNeedsSustainedHeat` | peer/src/gpu_thermal_guard.rs:43-60 | a pause is asked for exactly when none is in force, the sample is hot, and some sample at least the duration earlier was hot with nothing since ending the spell |
| `ThermalGuard.PauseReportsPeak` | peer/src/gpu_thermal_guard.rs:48-73 | the peak reported is the hottest reading of the spell |
| `ThermalGuard.ResumeNeedsCold` | peer/src/gpu_thermal_guard.rs:80-95 | the guard resumes exactly its own pause, on a sample at or below cooldown |
| `ThermalGuard.StatusShowsPause` | peer/src/gpu_thermal_guard.rs:59-95 | over every history the status shows a pause and its peak as long as the guard has paused, active until it has cooled down without a resume |
| `GossipFit.FitCatalogGossip` | peer/src/p2p_protocol.rs:304-333 | the loop terminates for every size function; each removal happened because the message before was too large; the models kept are the prefix of length n / 2^k for the least k that fits, or none |
| `GossipFit.FittedIsUnique` | peer/src/p2p_protocol.rs:304-333 | that description leaves one possible result |
| `GossipFit.FittedOrEmpty` | peer/src/p2p_protocol.rs:304-333 | the result fits or has no GPU report, location or models; other fields never change |
| `PeerStats.PeerStatsTracker.OnRequestStart` | peer/src/peer_stats.rs:67-86 | the count of the peer grows by one, and the exchange is in flight |
| `PeerStats.PeerStatsTracker.OnStreamProgress` | peer/src/peer_stats.rs:88-107 | progress changes no request count |
| `PeerStats.PeerStatsTracker.OnRequestComplete` | peer/src/peer_stats.rs:109-132 | one request moves from active to completed, if it was in flight; that the totals are those of the history is `PeerStats.TotalsByHistory` |
| `PeerStats.PeerStatsTracker.OnRequestError` | peer/src/peer_stats.rs:134-143 | one request moves from active to failed, if it was in flight; that the totals are those of the history is `PeerStats.TotalsByHistory` |
| `PeerStats.EveryRunCovers` | peer/src/peer_stats.rs:109-153 | in every run the exchanges of a peer in flight never outnumber its active count |
| `PeerStats.DecrementNeverSaturates` | peer/src/peer_stats.rs:118-121 | a request that ends was counted |
| `PeerStats.StartIsExact` | peer/src/peer_stats.rs:67-86 | a start keeps the counts exact exactly when its identifier is not in flight |
| `PeerStats.FreshIdsAreExact` | peer/src/peer_stats.rs:67-86 | with such identifiers the active count is the number of exchanges in flight |
| `PeerStats.StartsAreConserved` | peer/src/peer_stats.rs:109-153 | starts since the last removal are active, completed or failed, in every run |
| `PeerStats.TotalsByHistory` | peer/src/peer_stats.rs:109-143 | in every run the totals are the numbers of completions and of failures, since the last removal of the peer, of exchanges with it that were in flight |
| `PeerStats.InFlightByHistory` | peer/src/peer_stats.rs:67-153 | what is in flight, with whom and with how many tokens reported, is read off the history |
| `PeerStats.TrackedByHistory` | peer/src/peer_stats.rs:145-157 | the peers tracked are those with a start or a token mismatch since their last removal |
| `Schedule.FormatReadsBack` | peer/src/network_scheduler.rs:23-36 | what is shown for a time of day reads back as that time |
| `Schedule.TwoNumbersRead` | peer/src/network_scheduler.rs:23-32 | two numbers are a time of day exactly when they are an hour and a minute, whatever white space is around |
| `Schedule.OwnSettingsComeFirst` | peer/src/network_scheduler.rs:82-104 | a membership's own setting comes before the default, setting by setting, and without either the window is from nine to five and off |
| `Schedule.UnreadableIsNotReplaced` | peer/src/network_scheduler.rs:94-97 | a time of its own that cannot be read does not fall back on the default |
| `Schedule.WindowIsCircular` | peer/src/network_scheduler.rs:38-47 | a window is the stretch around the clock from start up to end, overnight included |
| `Schedule.NextTransition` | peer/src/network_scheduler.rs:138-160 | the reported time lies ahead by at most a day of the local clock, and the window flips there and not before exactly when start and end differ |
| `Schedule.ReportedTimeIsLocal` | peer/src/network_scheduler.rs:138-162 | as a Unix time it is the moment of the flip exactly where the local clock shows UTC |
| `Schedule.Flips` | peer/src/network_scheduler.rs:138-160 | the target is 1 to 1439 minutes ahead, the state flips there and is constant before |
| `Schedule.ApplyTo` | peer/src/network_scheduler.rs:173-197 | collecting the updates and making them in place switches exactly the memberships that are not as their window says |
| `Schedule.NetworkScheduler.ApplySchedules` | peer/src/network_scheduler.rs:164-235 | all memberships afterwards, and whether the networks are told |
| `Schedule.NothingUntilTransition` | peer/src/network_scheduler.rs:138-197 | applying again changes nothing before the reported transition and switches the membership there |
| `Schedule.ApplyIsIdempotent` | peer/src/network_scheduler.rs:164-235 | applying twice in the same minute is applying once |

## Left out

- libp2p, WebRTC, WebSocket, HTTP and dialling: the model has only "is connected", "message arrives" and "connection established".
- Cryptography: an ideal box that opens for the right key, request, path, part and room only, after section 2.8 of RFC 8439; keys, nonces and their storage are not modelled.
- JSON parsing: the parser is a parameter; nothing is required of it but that it reads the one chunk the transformer makes up, and where a client reads the body that it reads objects back; `DriverReading.SomeParserReadsBack` shows that there is one.
- Order of object keys: objects are field lists in the order of the source's literals, looked up by first match; the sorted order that the serialiser's map prints is not modelled.
- Integer widths: the u32 sequence numbers and u64 generations do not wrap, and counters do not saturate above.
- Error texts: the swarm consumer's errors are a datatype of causes.
- Channels: a send on a reply or reverse channel always succeeds; capacity, back-pressure and dropped receivers are not modelled.
- Legacy plaintext stream messages of the swarm (`ProxyResponseChunk`, `ProxyResponseDone`, `ProxyResponseError`): the provider never sends them.
- Messages parked for a consumer that is not connected, which a claim also empties: easy map updates.
- The inference sidecar, the block list and request decryption on the provider: an outcome of the claim step.
- The local SSE driver, which does not notice the end marker in an unterminated tail and decodes each byte chunk on its own: the remote driver is the one modelled.
- The copy of the chunk splitter in p2p_manager.rs without the progress guard: the guarded copies are modelled.
- Byte and token totals, latency and rate statistics of a peer: they are added twice by design and carry no invariant.
- Texts of summaries and previews: their flags, the finish reason and the panic of the preview are modelled.
- Authentication proof, start and end messages on the wire: only chunk messages are bounded.
- Sorting of the published catalogue by name and the copies per cluster and swarm: easy.
- Daylight-saving changes: a local day has 1440 minutes, and the offset from UTC is constant.
- Peer ranking, ring buffers, request normalisation, probes, configuration files, attestation: simpler or plain I/O.
- `EndToEnd.TextArrives`: assumes that the transmission of this request does not fail and that chunks for it answer its present attempt. Other chunks, of an earlier attempt or of anyone, are the subject of `ChunkTraffic.TrafficCannotLie`, which says what is told but not when it is all; single steps are `EndToEnd.StaleChunkFails`, `EndToEnd.GoodCopyHeals`, `EndToEnd.KeptStaleChunkFails`. Its only-if half is for texts whose white space takes one byte; `Upstream.WideSpaceIsNotMissed` shows that it needs that.
- `SwarmLifecycle.EveryRunKeeps`: assumes that an answer names the request it answers; `SwarmFrame.PartitionNeedsEcho` shows that this is needed.
- `Supersession.SentIsPrefix`: excludes tasks that lost a chunk to encryption; `Supersession.EncryptionFailureIsSilent` shows why.
- `SseProperties.ToolCallIsFound`: assumes that the parser reads the object back and does not take the longer text for a tool call itself; so do the lemmas of `SseStreams` about a call on its way (`SseStreams.IsCall`).
- `SseStreams.CallReachesClient`: the client reads a call at every identifier. One that merges increments by index instead would fold the call found, which has index 0, into a call of index 0 that the upstream sent before.
- `SplitOutcome.OutcomeIgnoresSplit`: assumes that every content can be printed as a chunk that the parser reads (`SplitOutcome.Says`); only the direction from all streams to the condition needs it.
- `RemoteProperties.ClientGetsText`: covers responses that leave text for the final flush; otherwise the stream does not end (`EndToEnd.KeptTextArrives`).
- `Wire.ResponseChunksFit`: the exact bound for texts with six-byte escapes is `Wire.PlainResponseFits`.
