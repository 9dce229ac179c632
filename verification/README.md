# Verified model of scalpel-cli's concurrent core

A Dafny model of the parts of scalpel-cli whose correctness spans several functions, goroutines
or whole runs, with machine-checked proofs of what those parts are for. `dafny verify
dfyconfig.toml` checks all of it.

| files | part of the system |
|---|---|
| `H2Model`, `H2History`, `H2Send`, `H2Receive`, `H2Lifecycle`, `H2Client`, `HeaderBlock` | the HTTP/2 connection engine: two-level flow control with retroactive SETTINGS, chunked bodies, receive windows, stream lifecycle and shutdown, header fragmentation |
| `Subscribers`, `CognitiveBus`, `BusAudience`, `BusOperations`, `Consumers` | the publish/subscribe bus, its shutdown handshake and its two consumers |
| `Mind`, `MindLoops` | the state machine of the mind and its loops |
| `Crawler`, `CrawlEngine`, `CrawlDispatch`, `CrawlExact`, `CrawlClosure`, `CrawlSession` | the discovery crawler |
| `KnowledgeGraph`, `Walks`, `ContextWalk`, `LongTermMemory` | the graph store, the two traversals on it, the observation cache |
| `FieldMatching`, `CssSelector` | the form analysis: field assignment and selector generation |
| `JsonNormal`, `JsonOrders`, `RequestDriver` | JSON normalisation; redirects, authentication, retries and protocol fallback |
| `Basics` | shared definitions |

How concurrency is modelled: a component with goroutines is a step system whose steps are the
critical sections, channel operations and wait-group operations of the code, interleaved without
restriction. Where the code is a class, a Dafny class has its fields and the bodies of its methods.
The classes in `BusOperations`, `MindLoops` and `CrawlEngine` put a call of `Others` between two
atomic pieces: its contract lets every other goroutine take any number of steps, its callers may use
nothing but that contract, and the lemmas named `RelyIsKept` show that each step of another goroutine
honours it. `Valid(before)` says that all of it, so far, is one run of the step system.

Laws about whole runs are told by the events or calls of the run: sums of increments, bodies handed in,
standing subscriptions, passive results. Histories kept inside a state are shown to agree with these.

What the model takes as given: I/O, clocks, the network, the browser, the language model and the
caller's callbacks answer arbitrarily, as parameters; foreign calls may panic where the code recovers
from panics. Time is a number handed in. Integers are unbounded except where the width matters:
int64 send windows, uint32 stream identifiers and the uint32 casts of lengths are written out.

Where the code and its comments part, the model follows the code:

- The field assignment is announced as globally optimal
  (`internal/agent/js_scripts/form_analysis.js:430`); it is greedy. The bound is one half
  (`FieldMatching.AssignFields`), and `FieldMatching.GreedyOptimalIff` says when it is optimal.
- The HEADERS size check is announced as covering the padding (`pkg/customhttp/h2client.go:1370`); it
  looks at the block alone (`HeaderBlock.PayloadsFitIff`).
- Flow control counts data and padding but not the Pad Length octet
  (`pkg/customhttp/h2client.go:667`), so the limits are in the code's own accounting, which is that of
  section 6.1 of RFC 9113 exactly without padding.
- The guard of a window is MaxInt64 and not the 2^31 − 1 of section 6.9.1 of RFC 9113, and SETTINGS
  has none (`H2Send.StreamWindow`, `H2Send.WrapIsReached`).
- Discovery accepts a configuration without workers, and then the session does not wait for passive
  discovery, whose tasks can meet a closed channel (`CrawlSession.SessionSafeIff`).
- A header block of 4 GiB or more is measured by the low 32 bits of its length, and the loop over its
  continuation frames may never end (`HeaderBlock.WriteContinuations`).
- An error from the credentials provider is returned together with "not handled"
  (`pkg/customhttp/client.go:847`), so its caller drops it and returns the 401 or 407 response; in the
  model such an error is no credentials.

## Model

| member | source | states |
|---|---|---|
| `H2Send.StreamWindow` | pkg/customhttp/h2client.go:521-1161 | in every run, for every stream in the table: window = initial window last announced + increments that counted − octets its frames carry, all read off the events, in int64; it is that exact number, and above −2^31, if and only if the sum fits an int64; a frame that could not be queued counts only after a failure on a connection whose end is signalled |
| `H2Send.WrapIsReached` | pkg/customhttp/h2client.go:1062-1076 | the SETTINGS branch has no upper guard: a run from a new connection, of accepted increments and one SETTINGS, that ends with a window thrown from MaxInt64 to the bottom of int64 |
| `H2Send.InitialWindowKeeps` | pkg/customhttp/h2client.go:1064-1075 | the retroactive shift keeps the send-side invariant: ledger of every open stream, bodies, table and connection window |
| `H2Send.ConnectionWindow` | pkg/customhttp/h2client.go:638-723 | in every run the connection window is in [0, MaxInt64] and equals 65535 + the increments that counted − the octets all queued frames carry, both read off the events; less only once the end of the connection is signalled |
| `H2History.GrantedIsTotal` | pkg/customhttp/h2client.go:1128-1161 | the increments on record are the sums of the WINDOW_UPDATE events that counted, for the connection and every stream |
| `H2History.DebitedIsCarried` | pkg/customhttp/h2client.go:694-720 | the octets debited from a stream are those its queued frames carry, but for at most one lost frame at the end |
| `H2History.LastAnnounced` | pkg/customhttp/h2client.go:1062-1084 | the initial window and the frame limit in force are the last ones the SETTINGS events validly announced |
| `H2History.BodiesHandedIn` | pkg/customhttp/h2client.go:521-550 | the k-th stream carries the k-th body handed in before the connection was stopped |
| `H2History.ReceivedIsTotal` | pkg/customhttp/h2client.go:1194-1255 | octets received, accepted, refilled and handed back, and updates sent, are the sums over the DATA events |
| `H2Send.SettingsLeaveConnection` | pkg/customhttp/h2client.go:1054-1101 | in any state, no SETTINGS frame moves the connection window |
| `H2Send.SettingKeepsExactIff` | pkg/customhttp/h2client.go:1064-1075 | in every run, a SETTINGS value keeps an exact window exact if and only if window + value − initial fits an int64 |
| `H2Send.BodyIntegrity` | pkg/customhttp/h2client.go:567-723 | in every run the chunks queued for the k-th stream spell a prefix of the k-th body handed in, none is empty, END_STREAM can only be on the last, and it is there if and only if the chunks are the whole body; a sender that ran to its end has queued the whole body |
| `H2Send.ChunkFits` | pkg/customhttp/h2client.go:656-700 | a queued chunk is non-empty and, with its padding, within the connection window, the stream window and the frame limit of the moment it was debited |
| `H2Send.StepKeeps` | pkg/customhttp/h2client.go:521-1161 | every critical section, in any order, keeps the send-side invariant |
| `H2Receive.ObedientPeerIsSafe` | pkg/customhttp/h2client.go:1194-1236 | in every run, DATA within the credit advertised to the peer, read off the events, never gets a flow-control error, whatever mix of known, unknown, rejected and padded DATA came before and even if no update could be queued |
| `H2Receive.CreditGap` | pkg/customhttp/h2client.go:957-981 | in every run each window exceeds the credit of the peer by exactly the octets it sent that were neither accepted nor handed back (padding, refused frames) |
| `H2Receive.WindowsBounded` | pkg/customhttp/h2client.go:1194-1236 | in every run both receive windows stay in [0, maximum] and the body within its limit |
| `H2Receive.UpdatesAreRare` | pkg/customhttp/h2client.go:1238-1255 | in every run: updates sent × half a window ≤ octets accepted, for the connection and each stream |
| `H2Receive.StepKeeps` | pkg/customhttp/h2client.go:1194-1255 | every critical section keeps the receive-side ledger of windows, credit and updates |
| `H2Lifecycle.IdsUniqueIff` | pkg/customhttp/h2client.go:521-550 | in every run all identifiers are odd, and they are pairwise different if and only if at most 2^31 streams were opened |
| `H2Lifecycle.OneOutcomeEachIff` | pkg/customhttp/h2client.go:302-344 | in every interleaving of opens, finalize, cleanup and the two halves of shutdown: no outcome while in the table and exactly one outside it, if and only if no section took an identifier in use for another stream's |
| `H2Lifecycle.OneOutcomeEach` | pkg/customhttp/h2client.go:552-565 | in every run with at most 2^31 streams no interleaving drops or duplicates an outcome: none while in the table, exactly one outside it |
| `H2Lifecycle.DoneOnce` | pkg/customhttp/h2client.go:302-344 | in every run doneChan is closed at most once; after shutdown the table is empty and, in an orderly run, everybody has exactly one outcome |
| `H2Lifecycle.StepKeeps` | pkg/customhttp/h2client.go:521-565 | every critical section keeps identifiers, table, outcomes and the shutdown stages in step |
| `H2Client.Client.InitializeStream` | pkg/customhttp/h2client.go:521-550 | refused exactly once the connection is no longer live; otherwise the next odd identifier, the current initial window, a full receive window and the whole body; a step of the run, keeping all three invariants |
| `H2Client.Client.CleanupStream` | pkg/customhttp/h2client.go:552-565 | the named stream leaves the table with one outcome, nothing else changes; a step of the run, keeping all three invariants |
| `H2Client.Client.FinalizeStream` | pkg/customhttp/h2client.go:1257-1292 | the table is asked by identifier and loses it, the outcome goes to the object; a step of the run, keeping all three invariants |
| `H2Client.Client.SendDataPass` | pkg/customhttp/h2client.go:638-723 | one locked pass of sendData: without window it waits, or fails when connection or stream is gone; otherwise the largest chunk that fits beside the padding is cut off, debited from both windows and queued, or lost when nothing can be queued; a step of the run, keeping all three invariants |
| `H2Client.Client.ChunkSize` | pkg/customhttp/h2client.go:656-693 | the computation of the chunk size agrees with its specification, which never exceeds the three limits and never yields an empty chunk |
| `H2Client.Client.ProcessSettings` | pkg/customhttp/h2client.go:1054-1101 | the last valid values are in force, every open stream has moved by the difference and nothing else, and the reply is fine exactly when every entry is allowed; a step of the run, keeping all three invariants |
| `H2Client.Client.ShiftWindows` | pkg/customhttp/h2client.go:1072-1075 | iterating the stream table in any order shifts exactly the open streams, each once |
| `H2Client.Client.ProcessConnWindowUpdate` | pkg/customhttp/h2client.go:1128-1147 | a positive increment that fits is added, anything else is a connection error that changes nothing; a step of the run, keeping all three invariants |
| `H2Client.Client.ProcessStreamWindowUpdate` | pkg/customhttp/h2client.go:1149-1160 | a positive increment that fits is added to that stream, zero and overflow are stream errors, a vanished stream is ignored; a step of the run, keeping all three invariants |
| `H2Client.Client.ProcessData` | pkg/customhttp/h2client.go:1194-1236 | the exact answer to DATA (no headers yet, beyond the connection window, beyond the stream window, beyond the size limit, accepted) and what it does to the windows; a step of the run, keeping all three invariants |
| `H2Client.Client.MaybeSendWindowUpdate` | pkg/customhttp/h2client.go:1238-1255 | an update brings the window back to its maximum and is worth at least half of it; there is one exactly at half or below, when connected and the write queue has room |
| `H2Client.Client.BeginShutdown` | pkg/customhttp/h2client.go:302-316 | only the first caller goes on |
| `H2Client.Client.SignalShutdown` | pkg/customhttp/h2client.go:318-322 | doneChan is closed by that one caller |
| `H2Client.Client.EndShutdown` | pkg/customhttp/h2client.go:329-340 | every stream still in the table gets one outcome and the table is emptied; keeps all three invariants |
| `H2Client.Client.DeliverToAll` | pkg/customhttp/h2client.go:333-338 | iterating the table in any order reaches exactly the open streams, each once |
| `HeaderBlock.ReassembleInverts` | pkg/customhttp/h2client.go:1367-1418 | reassembling the frames gives back the header block and leaves what follows, for every block, limit and padding |
| `HeaderBlock.FragmentsShape` | pkg/customhttp/h2client.go:1367-1418 | HEADERS first, CONTINUATION after it; END_HEADERS on the last frame only; END_STREAM and padding on the first only; fragments within the limit and non-empty |
| `HeaderBlock.PayloadsFitIff` | pkg/customhttp/h2client.go:1370-1381 | every payload is within the frame limit if and only if there is no padding or block, padding and its length octet fit together; the size check looks at the block alone, against its own comment |
| `HeaderBlock.PaddingOverflows` | pkg/customhttp/h2client.go:1370-1381 | a block that just fits, padded by one octet, exceeds the limit by two |
| `HeaderBlock.WriteContinuations` | pkg/customhttp/h2client.go:1399-1418 | the loop writes the continuation frames in order, or a prefix of them when the writer fails; from 4 GiB on, where the cast of the length wraps, only a failing writer ends it |
| `HeaderBlock.WriteHeaders` | pkg/customhttp/h2client.go:1367-1421 | writes exactly the fragments, or a prefix of them when the writer fails; whenever it succeeds the peer can reassemble the block; a block of 4 GiB or more succeeds if and only if its cast length fits one frame |
| `CognitiveBus.Safety` | internal/agent/cognitive_bus.go:59-217 | in every interleaving: no send on a closed channel, no channel closed twice, closing only with the flag set and no active post; processing count = buffered + held + in a select; copies delivered = buffered + held + acknowledged |
| `CognitiveBus.NilMeansDeliveredOnce` | internal/agent/cognitive_bus.go:59-124 | a Post that returned nil put its message exactly once on every channel of its snapshot and nowhere else; one that failed, on no channel twice |
| `BusAudience.DeliveredToTheAudience` | internal/agent/cognitive_bus.go:59-124 | in every run a Post that returned nil put its message exactly once on every channel whose subscription to its kind, or to everything, stood when it looked (told by the calls of Subscribe, unsubscribe and Shutdown alone), and on no other |
| `BusAudience.ListeningIsHearing` | internal/agent/cognitive_bus.go:80-91 | in every run the subscribers read for a kind are exactly the channels with a standing subscription to it or to everything |
| `BusAudience.ShutdownClosesAll` | internal/agent/cognitive_bus.go:200-211 | when Shutdown has returned, every channel with a subscription that stood at the closing is closed |
| `CognitiveBus.ShutdownLeavesNothing` | internal/agent/cognitive_bus.go:186-217 | when Shutdown has returned: all buffers empty, nothing unacknowledged, no post active |
| `CognitiveBus.StepKeepsInv` | internal/agent/cognitive_bus.go:59-217 | every atomic step of every goroutine keeps the counts, the phases and the delivery ledger |
| `BusOperations.MessageBus.Post` | internal/agent/cognitive_bus.go:59-124 | the code of Post under arbitrary interference is a run of the step system; nil means exactly one copy on every channel whose subscription to the kind or to everything stood at a moment during the call, and none elsewhere; each error has its cause, and after the flag nothing is sent |
| `BusOperations.MessageBus.ReadSubscribers` | internal/agent/cognitive_bus.go:77-105 | reads each channel that hears the kind, once |
| `BusOperations.MessageBus.Select` | internal/agent/cognitive_bus.go:107-122 | the channel of the select is open whichever case is taken; a send appends the message within the capacity and fails only on a full buffer, every other case undoes the count |
| `BusOperations.MessageBus.Shutdown` | internal/agent/cognitive_bus.go:186-217 | the code of Shutdown under arbitrary interference is a run of the step system; it is still waiting exactly on active posts or unacknowledged messages, and once it returns nothing is buffered, held or unacknowledged and every subscribed channel is closed |
| `BusOperations.MessageBus.CloseChannels` | internal/agent/cognitive_bus.go:201-211 | closes exactly the distinct subscribed channels and forgets the table |
| `BusOperations.RelyIsKept` | internal/agent/cognitive_bus.go:59-217 | every step of another goroutine keeps what Post and Shutdown rely on between their atomic pieces |
| `Subscribers.LeaveUndoesJoin` | internal/agent/cognitive_bus.go:129-173 | unsubscribing a fresh channel restores the table, for every list of types, repeated ones included |
| `Subscribers.JoinedCopies` | internal/agent/cognitive_bus.go:141-143 | joining lists the channel once more per mention of a type and touches no other channel |
| `Subscribers.LeftCopies` | internal/agent/cognitive_bus.go:153-169 | leaving drops one listing per mention of a type and touches no other channel |
| `Subscribers.Registry.Subscribe` | internal/agent/cognitive_bus.go:129-144 | the loop joins the channel to every listed type, or to "all" |
| `Subscribers.Registry.Unsubscribe` | internal/agent/cognitive_bus.go:146-170 | the loop removes one occurrence per listed type and drops emptied entries |
| `Subscribers.Registry.RemoveOne` | internal/agent/cognitive_bus.go:154-168 | shifting over the first occurrence and truncating removes just that occurrence |
| `Subscribers.Distinct` | internal/agent/cognitive_bus.go:90-103 | every channel once, and no others |
| `Consumers.ProcessActionMessage` | internal/agent/agent.go:284-372 | exactly one acknowledgement on every path, panics of any foreign call included; the loop stops exactly on a successful CONCLUDE, which finishes the mission, and every other action that does not panic is answered by an observation |
| `Consumers.ConcludeMission` | internal/agent/agent.go:506-546 | never (nil, nil) and never both, which the CONCLUDE branch relies on; a result exactly when context and marshalling succeed, whatever the summary does |
| `Consumers.ActionLoop` | internal/agent/agent.go:260-280 | as many acknowledgements as received messages; messages are left unread exactly after the first successful CONCLUDE |
| `Consumers.ObserveMessage` | internal/agent/llm_mind.go:175-217 | exactly one acknowledgement on every path; the loop fails exactly on a panic or a critical error, and signals otherwise |
| `Mind.TerminalForever` | internal/agent/llm_mind.go:925-947 | in every interleaving of the decision loop, the observer loop and SetMission, COMPLETED and FAILED are never left |
| `Mind.ConcludeIsLast` | internal/agent/llm_mind.go:233-301 | at most one CONCLUDE is posted, and it is the last post of the loop |
| `Mind.NothingAfterTheDecision` | internal/agent/llm_mind.go:259-301 | from the decision to conclude on, the loop posts that action or nothing, whatever fails or panics |
| `Mind.ConcludedMeansTerminal` | internal/agent/llm_mind.go:233-241 | a cycle that starts after the decision stops at its guard |
| `Mind.StepKeepsInv` | internal/agent/llm_mind.go:127-301 | every step of the three kinds of goroutine keeps the invariant behind these laws |
| `Mind.StepModes` | internal/agent/llm_mind.go:127-301 | the mode each step aims at |
| `MindLoops.LLMMind.UpdateState` | internal/agent/llm_mind.go:925-947 | terminal states absorb, anything else moves |
| `MindLoops.LLMMind.ExecuteDecisionCycle` | internal/agent/llm_mind.go:233-301 | the code of a cycle under arbitrary interference is a run of the step system; past its guard it posts the decided action if and only if context, decision and record succeed, panics if and only if the first call that does not succeed panics, and leaves the mode the source prescribes for each failure |
| `MindLoops.LLMMind.RecordAction` | internal/agent/llm_mind.go:276-280 | the action is posted if and only if it could be recorded; otherwise the mind has failed, unless it was terminal |
| `MindLoops.LLMMind.PostAction` | internal/agent/llm_mind.go:282-301 | exactly one post; a terminal state survives the bookkeeping after it |
| `MindLoops.LLMMind.DecisionLoop` | internal/agent/llm_mind.go:127-154 | any number of turns with recovered panics is a run of the step system, with at most one CONCLUDE and nothing after it |
| `MindLoops.LLMMind.ObserveOne` | internal/agent/llm_mind.go:175-217 | one observation under interference is a run; it wakes the decision loop, or ends the observer loop in a terminal state on a critical failure |
| `MindLoops.LLMMind.SetMission` | internal/agent/llm_mind.go:950-988 | under interference it is a run; it assigns the mission, wakes the loop, or leaves a terminal state when the mission cannot be recorded |
| `MindLoops.RelyIsKept` | internal/agent/llm_mind.go:159-301 | every step of another goroutine keeps what a goroutine relies on between its locked sections |
| `Crawler.CloseSafety` | internal/discovery/engine.go:99-209 | in every uncancelled run: taskWG = queued + crawls in flight + enqueues being resolved, never negative; the queue is closed once, empty and with no possible sender; with a worker or without a passive source the task channel is closed after every goroutine; then, and also without an enabled scanner, no send hits a closed channel |
| `Crawler.DiscoveryIsGrounded` | internal/discovery/engine.go:212-307 | in every run each URL is recorded at most once, every recorded URL lies on a link walk of its recorded depth from a target or a reported passive result, and only pages below the maximum depth are crawled |
| `Crawler.PassivePerTarget` | internal/discovery/engine.go:110-150 | once seeding is over passive discovery has been launched once per target if it is enabled, and never otherwise |
| `CrawlDispatch.DispatchedOnce` | internal/discovery/engine.go:310-339 | in every run each scanner gets each URL at most once, the tasks of a URL go out in the order taint, headers, tokens, and only for discovered URLs and scanners whose own switch is on |
| `CrawlDispatch.DispatchedExactly` | internal/discovery/engine.go:310-339 | once the goroutines of a run without abandoned pages and dropped tasks are gone, each of the three scanners has got exactly the discovered URLs if its switch is on and nothing otherwise, once and in order |
| `Crawler.StepKeepsInv` | internal/discovery/engine.go:99-307 | every step keeps the three wait-group equations and the order of closing |
| `Crawler.StepKeepsSound` | internal/discovery/engine.go:212-307 | every step keeps discovery grounded in link walks |
| `CrawlExact.CrawlFindsExactly` | internal/discovery/engine.go:236-307 | one target, one worker, no passive source, nothing dropped: at the end exactly the URLs within the depth limit are known, each with its shortest distance |
| `CrawlClosure.CrawlIsClosed` | internal/discovery/engine.go:212-307 | any number of workers, targets and passive results, nothing dropped: when the queue is closed every target and result is discovered, and every link of every page below the maximum depth |
| `CrawlSession.SessionSafeIff` | internal/discovery/engine.go:99-167 | no run sends on a closed channel if and only if there is a worker, no passive source, no valid target, or no enabled scanner |
| `CrawlSession.UnsupervisedPanics` | internal/discovery/engine.go:104-145 | with no worker, a passive source and an enabled scanner there is a run that sends on the closed task channel |
| `CrawlEngine.Engine.ProcessAsset` | internal/discovery/engine.go:236-307 | the code under arbitrary interference is a run of the step system; afterwards the URL is processed and nothing is half done |
| `CrawlEngine.Engine.Dispatch` | internal/discovery/engine.go:310-339 | each scanner whose switch is on gets its task unless the page ran out of time; the channel is still open afterwards, and closing is for good |
| `CrawlEngine.Engine.SendOrDrop` | internal/discovery/engine.go:298-306 | the queue is open when a goroutine sends into it; a full queue undoes the count |
| `CrawlEngine.Engine.CrawlLinks` | internal/discovery/engine.go:222-233 | every link of a page ends up processed |
| `CrawlEngine.Engine.WorkOne` | internal/discovery/engine.go:178-233 | one task of a worker, failed navigation included, is a run; the links of the page end up processed and the count stays non-negative |
| `CrawlEngine.RelyIsKept` | internal/discovery/engine.go:99-307 | every step of another goroutine keeps what a goroutine relies on between its atomic pieces |
| `KnowledgeGraph.InMemoryKG.AddEdge` | internal/knowledgegraph/knowledgegraph.go:52-86 | on insert, update and move the index keeps listing each edge exactly once under its source; refused exactly when an end is missing |
| `KnowledgeGraph.InMemoryKG.AddNode` | internal/knowledgegraph/knowledgegraph.go:42-49 | replaces the node and keeps index and edges |
| `KnowledgeGraph.InMemoryKG.RemoveFromOutgoing` | internal/knowledgegraph/knowledgegraph.go:90-100 | swap-with-last removes that edge and no other |
| `KnowledgeGraph.InMemoryKG.GetEdges` | internal/knowledgegraph/knowledgegraph.go:159-183 | agrees with a full scan of the edge table, each edge once |
| `KnowledgeGraph.InMemoryKG.GetNeighbors` | internal/knowledgegraph/knowledgegraph.go:127-155 | the far ends of all outgoing edges, one entry per edge; the inconsistency branches are dead |
| `KnowledgeGraph.Replay` | internal/knowledgegraph/knowledgegraph.go:42-100 | any sequence of AddNode and AddEdge leaves the graph the calls describe, with a correct index: looking up gives what was put last |
| `KnowledgeGraph.LastPutWins` | internal/knowledgegraph/knowledgegraph.go:42-86 | the graph of a sequence of calls holds the node put last and the edge put last while both its ends existed |
| `KnowledgeGraph.AlwaysClosed` | internal/knowledgegraph/knowledgegraph.go:52-86 | after any sequence of calls both ends of every edge exist |
| `ContextWalk.GatherContext` | internal/agent/llm_mind.go:305-364 | exactly the nodes at directed distance at most the look-back from the mission, each once, and exactly the edges among them, each once; an error exactly without a mission node |
| `ContextWalk.Neighborhood` | internal/agent/llm_mind.go:306-340 | the labels of the search are the shortest distances |
| `ContextWalk.GatherMissionContext` | internal/agent/agent.go:548-594 | terminates with exactly the nodes reachable from the mission and each edge leaving them once; empty without a mission node |
| `ContextWalk.CollectEdges` | internal/agent/agent.go:578-585 | twice the unseen edges plus the queue length never grows, which is why the traversal ends |
| `Walks.LabelsAreDistances` | internal/agent/llm_mind.go:306-340 | a labelling backed by walks and closed below the limit is the shortest-distance labelling |
| `LongTermMemory.LTM.ProcessAndFlagObservation` | internal/agent/long_term_memory.go:68-101 | every flag by its own condition; redundant exactly when an unpurged observation has the hash at the check, cached exactly otherwise, though the janitor may purge in between; the double index stays a bijection |
| `LongTermMemory.LTM.PurgeExpiredCache` | internal/agent/long_term_memory.go:156-178 | in any iteration order drops exactly what is older than its time to live from both tables |
| `LongTermMemory.LTM.CheckRedundant` | internal/agent/long_term_memory.go:105-110 | the index answers for the cache |
| `LongTermMemory.LTM.AddObservationToCache` | internal/agent/long_term_memory.go:114-128 | afterwards the identifier is cached and all other entries are as before; tables inverse to each other stay so if and only if the identifier was known or the hash is new |
| `LongTermMemory.RunKeepsBijection` | internal/agent/long_term_memory.go:68-178 | with one source, every interleaving with the janitor keeps the bijection |
| `LongTermMemory.AddKeepsBijectionIff` | internal/agent/long_term_memory.go:114-128 | insertion keeps it if and only if the identifier is old or the hash new |
| `LongTermMemory.RepeatIsFlagged` | internal/agent/long_term_memory.go:68-178 | nothing is forgotten early: a repeat within the time to live is flagged after any run |
| `LongTermMemory.NewIsRemembered` | internal/agent/long_term_memory.go:68-178 | a new payload under a new identifier is remembered: its repeat is flagged after any run without a purge past its time to live |
| `LongTermMemory.TwoSourcesBreakTheIndex` | internal/agent/long_term_memory.go:92-98 | two sources that pass the check together leave an index that forgets a live entry |
| `FieldMatching.AssignFields` | internal/agent/js_scripts/form_analysis.js:446-476 | an injective, maximal matching of the pairs above the threshold whose score is at least half that of every other such matching |
| `FieldMatching.HalfOfAnyMatching` | internal/agent/js_scripts/form_analysis.js:465-476 | the greedy total is at least half of any matching over the same entries |
| `FieldMatching.GreedyIsMaximalMatching` | internal/agent/js_scripts/form_analysis.js:465-476 | the taken entries form a matching to which nothing can be added |
| `FieldMatching.GreedyOptimalIff` | internal/agent/js_scripts/form_analysis.js:428-430 | optimal on every part of a score matrix if and only if no entry is outweighed by two later ones that share its input and its field type |
| `FieldMatching.FallsShort` | internal/agent/js_scripts/form_analysis.js:428-476 | a form of two text inputs, with the scores scoreElement gives them, that gets one field and 25 points where two fields and 30 are possible, against the comment |
| `FieldMatching.SortByScore` | internal/agent/js_scripts/form_analysis.js:461-461 | the matrix is sorted in place, descending, as a permutation |
| `FieldMatching.ScoreMatrix` | internal/agent/js_scripts/form_analysis.js:446-458 | all pairs above the threshold, each once |
| `FieldMatching.Assign` | internal/agent/js_scripts/form_analysis.js:464-476 | the loop takes exactly the greedy entries |
| `CssSelector.StructuralPath` | internal/agent/js_scripts/form_analysis.js:187-242 | for every attached, anchored element the path selects exactly that element, in an independent semantics of selectors; for every attached element it is the path defined top down, with an ordinal exactly where there are siblings |
| `CssSelector.GetCssSelector` | internal/agent/js_scripts/form_analysis.js:98-242 | the whole generator selects exactly the element, and prefers a unique id, then a name unique in the context, then a unique name, then the path |
| `CssSelector.Ordinal` | internal/agent/js_scripts/form_analysis.js:219-229 | the walk over previous siblings computes the nth-of-type ordinal |
| `CssSelector.OrdinalsDiffer` | internal/agent/js_scripts/form_analysis.js:219-229 | siblings with equal tag and equal ordinal are the same element |
| `CssSelector.PathGrows` | internal/agent/js_scripts/form_analysis.js:219-233 | prepending the compound of an element turns a path from it into a path from its parent |
| `CssSelector.InsideContext` | internal/agent/js_scripts/form_analysis.js:148-170 | a selector of the context followed by a name unique in it selects exactly the element |
| `JsonNormal.OrderIndependentIff` | internal/jsoncompare/service.go:132-171 | the filled object is the same for all iteration orders if and only if no literal placeholder key clashes |
| `JsonOrders.ResultsAgreeIff` | internal/jsoncompare/service.go:114-179 | all runs of the normaliser agree on a whole document if and only if no object it visits has a clash |
| `JsonOrders.ObjectBecomes` | internal/jsoncompare/service.go:132-171 | without placeholder keys in the input, every static key keeps its name with a result of its value, and all other keys are the first numbered placeholders with the placeholder value |
| `JsonNormal.KeyCountKeptIff` | internal/jsoncompare/service.go:132-171 | no key is lost in any order if and only if no literal numbered key lies in the range the dynamic keys use |
| `JsonNormal.OrderIrrelevant` | internal/jsoncompare/service.go:132-171 | without a clash every order gives one canonical object |
| `JsonNormal.NumberedClashDiverges` | internal/jsoncompare/service.go:154-168 | with a numbered clash one order keeps all keys and another loses some |
| `JsonNormal.LiteralClashDiverges` | internal/jsoncompare/service.go:154-168 | with a literal placeholder key among dynamic ones two orders differ |
| `JsonNormal.Pigeonhole` | internal/jsoncompare/service.go:154-168 | n occupied placeholders need n keys, so the unbounded search ends |
| `JsonNormal.SlotsDiffer` | internal/jsoncompare/service.go:136-163 | the candidates of the search are pairwise different strings |
| `JsonNormal.FreeSlot` | internal/jsoncompare/service.go:154-168 | the search loop ends at the first free candidate |
| `JsonNormal.NormalizeRecursive` | internal/jsoncompare/service.go:114-130 | the result is one of the possible results of the document; it is the order-free meaning on clash-free documents, and a normal document under benign options |
| `JsonNormal.NormalizeMap` | internal/jsoncompare/service.go:132-171 | fills the object in some order with the normalised values |
| `JsonNormal.NormalizeSlice` | internal/jsoncompare/service.go:173-179 | element by element, in order |
| `JsonNormal.NormalIsFixed` | internal/jsoncompare/service.go:114-242 | a normal document has no clash and normalises to itself |
| `JsonNormal.NormalizeTwice` | internal/jsoncompare/service.go:110-179 | normalising twice is normalising once, for every document and all orders, when key patterns match no placeholder and only scalars are ignored |
| `RequestDriver.HttpClient.Do` | pkg/customhttp/client.go:188-196 | terminates within 2·(redirects+1)·(retries+1) attempts of at most three tries each; every request of the run is the caller's, a retry, the answer to a challenge, or goes to the Location of the response before it; a nil error comes with the last response; in the life of the client a host sees at most one failed HTTP/3 try and one refused HTTP/2 negotiation, and credentials reach only the origin they were set for |
| `RequestDriver.HttpClient.DoInternal` | pkg/customhttp/client.go:199-239 | ends under the measure (redirects left, authentication open); undisturbed, after the attempts for its request it goes on exactly as the answer demands: an error ends it, a challenge is answered once, a redirect is followed, refused or returned, anything else is returned |
| `RequestDriver.NextIsRedirected` | pkg/customhttp/client.go:939-992 | the redirected request goes to the Location, with the verb each status prescribes, and without credentials across origins |
| `RequestDriver.CredentialsAnswer` | pkg/customhttp/client.go:803-856 | the answer to a challenge is the same request with the one header the status asks for |
| `RequestDriver.HttpClient.HandleRedirect` | pkg/customhttp/client.go:869-911 | the next request is the one the Location asks for and, undisturbed, is sent; without Location, with a refusing check or at the limit nothing more is sent, and each of these returns what the source returns |
| `RequestDriver.HttpClient.ExecuteWithRetries` | pkg/customhttp/client.go:242-383 | at most 1 + retries attempts, all but the last retryable; undisturbed, the last is not retryable unless retries are used up; cancelled or without a body nothing is sent; a nil error always comes with a response |
| `RequestDriver.HttpClient.Attempt` | pkg/customhttp/client.go:280-346 | HTTP/3, HTTP/2, HTTP/1 in that order, the next exactly after a failure that falls back, skipping what the host is known not to support; an error or a response, never neither |
| `RequestDriver.HttpClient.TryProtocol` | pkg/customhttp/client.go:284-333 | a failed HTTP/3 try and a refused HTTP/2 negotiation are remembered for the host; credentials go only to their origin |
| `RequestDriver.LogTry` | pkg/customhttp/client.go:284-333 | one more try keeps the correspondence between the log and the remembered hosts |

## Left out

- Liveness: the HTTP/2 client writes to channels while it holds its mutex, and consumers of the bus may leave with messages buffered, so only safety is stated.
- TLS, dialling, HPACK, the framer and QUIC: foreign libraries; frames are events and header blocks octet sequences.
- The order of frames on the wire: one WINDOW_UPDATE bypasses the writer, so CONTINUATION frames may be interrupted.
- Use of an HTTP/2 client after shutdown: the stream table is nil then; the model has one connection per client.
- H2Lifecycle.OneOutcomeEachIff: an outcome is an attempt to send on DoneChan; in a run that confuses identifiers a second attempt may be dropped by the full channel.
- H2Send.BodyIntegrity: one body per stream; calling ReleaseBody twice for one handle would send it twice.
- Crawler.CloseSafety: cancellation is not modelled; a passive goroutine may then outlive the workers. One Start per engine; a panic outside a crawl ends the program.
- FieldMatching.AssignFields: the scorer is an arbitrary function; keyword matching, labels and the scores of buttons and contexts are not modelled.
- CssSelector.StructuralPath: the anchor condition is sufficient, not necessary: without it a path may still be unique by accident. Escaping is taken as faithful; shadow roots, fragments and shadowed properties of form elements are not modelled.
- BusOperations.MessageBus.Post: the race of `append` on spare capacity between concurrent Posts is not modelled; the snapshot is a value.
- Mind: a panic between two sections that is not in a foreign call, as in the logger, is not modelled.
- RequestDriver.HttpClient.Do: one caller at a time; pooled connections and their eviction, cookies, backoff times, a nil URL and the bytes of a 307 or 308 body (which the code does not carry over) are not modelled.
- JSON comparison after normalisation: the diff is a foreign library, and the equality it is given is not transitive around null.
- JsonNormal.NormalizeRecursive: the regular expressions, entropy and timestamp heuristics are abstract predicates.
- LongTermMemory: SHA-256 is an arbitrary function; two payloads with equal hash count as equal, as in the code.
- Rule identifiers of the SARIF reporter, prompts, model clients, browser automation, login and sign-up executors, the Postgres store, configuration and the command line: plumbing that would only add easy members.
