# Hexa engine: verified models

Dafny models of six parts of the Hexa engine, with proofs over every input and every run.
`dafny verify dfyconfig.toml` checks the whole project.

- **Analytics reducer** (`Events`, `ToolCorrelation`, `ThreadLineage`, `ReviewLedger`,
  `TurnAssembly`, `ReducerModel`). The reducer takes one message of its queue at a time and keeps
  nine maps. `ReducerModel.Step` gives a step as a function of the state, component by component;
  `Run` strings steps together. `AnalyticsReducer.Reducer` is the same machine as a class that
  updates the maps in place. Each of its handlers states the part of the step it performs; `Ingest`
  joins them, so the maps are always those of the model's run over the messages taken. The
  theorems about whole runs are in `CorrelationTheorems`, `ToolEventTheorems`,
  `AttributionTheorems`, `TurnTheorems`, `TurnContextTheorems`, `ToolCountTheorems`,
  `ReviewTheorems` and `LineageTheorems`; `ReducerGuarantees` states them of a reducer object.
  What the maps hold and what each message emits is told from the messages alone, without the
  functions of the model, in `RunHistory` (requests, approvals, running items), `TurnHistory` and
  `TurnLifetime` (turns and their events), `ToolRecords` (which tool events are recorded),
  `NamedCalls`, `CorrelatorLaws` and `ResponseTheorems` (how they are attributed and released),
  `ThreadHistory` and `OtherEventTheorems`.
- **Analytics client** (`EventQueue`): splitting events into requests, the bounded dedupe of "used"
  facts, and the queue loop that drives the reducer.
- **Accepted-line counter** (`AcceptedLines`): the line scanner against a structured diff and its
  printer.
- **Remote app-server client** (`RemoteWorker`, `RemoteClient`): the worker loop as a transition
  system over any interleaving of commands, messages and write failures, the class that runs it,
  the handshake before it, the consumer's reads, and whole sessions of all three. It routes
  messages of the JSON-RPC 2.0 specification; -32601 is the "method not found" code of its section
  5.1.
- **Agent roles** (`AgentRoles`): roles merged over configuration layers, and the closed form of
  the result.
- **Lint wrapper** (`LintWrapper`): the argument parser and the builder whose output it reads.

## How the program is represented

- Identifiers, texts and payloads whose content does not matter are opaque integers. Clock readings
  are part of the messages; a signed time that the program converts is an integer, and a negative
  one is rejected as in the program.
- Where the program walks over a hash map and the order shows in its output, the order is an input:
  any list of the keys, each once. Elsewhere the loops pick keys in any order.
- An ingest holds the reducer exclusively across its await points, so it is one step.
- The ancestor walk of a thread can run forever on cyclic parents (`SelfParentLoops`). The program
  states that parents are spawned before their children; the class is used under that premise,
  given as a rank on threads. The run theorems that do not name the premise hold without it, with a
  cyclic thread counting as not resolvable.
- A caller waiting for a reply of the remote worker is named by the position of its command in the
  run, so that two callers are never confused.

## Properties that do not hold, and exactly when they do

- Ingesting an awaited completion before or after the sampling response that names it gives
  different states when the completion names an unknown cell although its call was started in a
  live one: it is enriched once or twice, and the second time finds the other cell. This is the only
  case (`RaceIndependence`, `UnsettledRaceDiffers`).
- The line counter takes the path lines of a file for changes when they follow an open hunk and no
  git header closes it, as in plain unified diffs of several files (`CountsAreExactIff`,
  `PlainDiffIsMiscounted`).
- The highest layer that sets a field of a role does not always win: what layers say below the
  first description of the role is dropped (`RolesClosedForm`, `EarlyFieldsAreLost`).
- Rebuilding lint arguments is stable unless the manifest path is the separator itself
  (`RebuildIff`).
- The bounded dedupe reports a key again exactly if it was last reported before the set in force
  was started (`DedupeAnswers`, `RepeatIsReported`).

## Model

| member | source | states |
|---|---|---|
| `ToolEventTheorems.ToolEventsConserved` | engine/analytics/src/reducer.rs:1032-1107 | in every run, for every tool event up to its four correlation fields, copies recorded = copies emitted + copies still queued under its turn |
| `ToolEventTheorems.FlushEmitsEverything` | engine/analytics/src/reducer.rs:1103-1107 | after a flush no queue holds anything and the run has emitted exactly the bag of tool events it recorded |
| `ToolEventTheorems.ReachableInvariant` | engine/analytics/src/reducer.rs:774-1101 | in every reachable state each queue, response map, child map and cell map has at most 256 entries, no cell map is empty, and every waiting event waits under its own turn without a subsequent response |
| `ToolEventTheorems.EmittedToolsSound` | engine/analytics/src/reducer.rs:1035-1042 | in every run, an emitted tool event that names a subsequent response names a different originating one |
| `AttributionTheorems.OriginNamesCall` | engine/analytics/src/reducer.rs:1012-1031 | in every run, an emitted tool event with an originating response has, no later than the message that let it out, a sampling response of its thread with that id that named its call or the call that started its cell |
| `AttributionTheorems.SubsequentComesLater` | engine/analytics/src/reducer.rs:1032-1047 | in every run, an emitted tool event with a subsequent response has a sampling response of its own turn with that id after the message that recorded the event |
| `AttributionTheorems.RunAttributed` | engine/analytics/src/reducer.rs:774-1048 | in every reachable state each response id in a lookup map, a cell or a queue was named for its call by a sampling response of the run |
| `CorrelatorAttribution.StepTraced` | engine/analytics/src/reducer.rs:774-1101 | every correlator step keeps that attribution and lets out only attributed events |
| `ResponseTheorems.NamedCallIsTied` | engine/analytics/src/reducer.rs:1012-1047 | the converse over runs: a waiting event whose call is anywhere among the calls of the responses of its turn since the turn last ended, at most 256 different ones, is tied to the last response that named it |
| `ResponseTheorems.NamedCallIsReleased` | engine/analytics/src/reducer.rs:1012-1047 | the next response with another id emits such an event, tied to the response that named its call and with the next one as subsequent |
| `ResponseTheorems.ParentIsReleased` | engine/analytics/src/reducer.rs:1021-1047 | the same for an event of a live cell whose parent call was named |
| `ResponseTheorems.ResponseDecides` | engine/analytics/src/reducer.rs:1002-1048 | for every waiting event, what a response makes of it: attributed by all that was named, it is emitted with the response as subsequent exactly if tied to another one, and waits on otherwise |
| `ResponseTheorems.RecordingDecides` | engine/analytics/src/reducer.rs:1050-1081 | for every recorded event: attributed by all that was named so far, it is emitted at once exactly if it need not wait and nothing ties it to a cell or a response, and otherwise joins the end of its queue |
| `ResponseTheorems.TablesTellHistory` | engine/analytics/src/reducer.rs:774-1048 | in every reachable state the lookup maps of a turn are those of the calls named and started in cells since the turn last ended, the first 256 different ones |
| `ResponseTheorems.CellsTellHistory` | engine/analytics/src/reducer.rs:774-1030 | in every run each message changes each cell as told from the messages: who opens, moves, closes and attributes it |
| `ResponseTheorems.HandedOverInOrder` | engine/analytics/src/reducer.rs:1083-1107 | the end of a turn hands over its queue as it is; closing a thread and flushing hand over whole queues one after the other |
| `NamedCalls.AdmitAllFits` | engine/analytics/src/reducer.rs:1012-1020 | admitting the calls of one more response gives the table of the longer list of named calls |
| `CorrelatorLaws.EnrichAttributes` | engine/analytics/src/reducer.rs:2547-2575 | enriching an event attributes it: by its call, or else by the parent call of its cell |
| `CorrelatorLaws.StepFits` | engine/analytics/src/reducer.rs:774-1101 | every correlator step keeps the tables and queues in line with what was named and started |
| `ToolRecords.ItemRecordedIff` | engine/analytics/src/reducer.rs:1904-1986 | a completed item records a tool event exactly if it is a running tool of a known turn, ends at a valid time in context and is over; the event says its kind, times, root turn and reviews |
| `ToolRecords.CallRecordedIff` | engine/analytics/src/reducer.rs:846-1000 | a code-mode or control call records its event exactly if its thread is in context; no other message records any |
| `RunHistory.ItemsTellHistory` | engine/analytics/src/reducer.rs:1887-1995 | in every reachable state a tool item is running exactly if it was started at a valid time and did not complete in a known turn since |
| `ToolEventTheorems.ReducerRaceIndependence` | engine/analytics/src/reducer.rs:846-1081 | with room in the queue and the call admitted, an awaited completion and the sampling response naming it give the same events in either order, and the same reducer state if and only if the event is settled |
| `ToolEventTheorems.StepIsolated` | engine/analytics/src/reducer.rs:846-1000 | what a message does outside the correlator, its other events included, does not depend on the correlator |
| `CorrelationTheorems.RaceIndependence` | engine/analytics/src/reducer.rs:1002-1081 | the same race on the correlator alone, with its exact condition |
| `CorrelationTheorems.EnrichTwice` | engine/analytics/src/reducer.rs:2547-2575 | enriching before and again after a response equals enriching once after it, exactly for settled events |
| `ToolEventTheorems.UnsettledRaceDiffers` | engine/analytics/src/reducer.rs:2555-2569 | two runs from the initial state that differ only in the order of a completion naming an unknown cell, while its call runs in a live one, and of the response naming the call, end in different states |
| `CorrelationTheorems.StepConserves` | engine/analytics/src/reducer.rs:1032-1107 | every correlator step: events in + waiting before = events out + waiting after, for every event |
| `CorrelationTheorems.StepSound` | engine/analytics/src/reducer.rs:1035-1042 | every event a step lets out is sound; a sampling response writes its own id on the events it releases, and evicted, flushed and immediate events carry no subsequent response |
| `CorrelationTheorems.SampledLeavesOwn` | engine/analytics/src/reducer.rs:1035-1047 | after a sampling response an event left in that queue has no originating response or that very one |
| `CorrelationTheorems.SampledIsStablePartition` | engine/analytics/src/reducer.rs:1032-1047 | a sampling response splits the enriched queue into two in-order parts, exactly by whether the response follows the originating one |
| `CorrelationTheorems.RecordEvictsOldest` | engine/analytics/src/reducer.rs:1071-1080 | an event that need not wait leaves at once and the queue is unchanged; any other joins the end of the queue, enriched, and evicts only the oldest event and only from a full queue |
| `ToolCorrelation.StepKeepsInvariant` | engine/analytics/src/reducer.rs:780-1101 | every correlator step keeps the 256-entry bounds, the non-empty cell maps and the queue invariant |
| `ToolCorrelation.AdmitAllBounded` | engine/analytics/src/reducer.rs:1012-1020 | admitting any list of calls keeps the response map within 256 entries |
| `ToolCorrelation.BackfillCells` | engine/analytics/src/reducer.rs:1021-1030 | the loop over the cells fills in exactly the missing originating responses |
| `ToolCorrelation.SplitQueue` | engine/analytics/src/reducer.rs:1032-1047 | the queue loop releases and keeps exactly the two parts of the partition |
| `TurnTheorems.TurnEventsBounded` | engine/analytics/src/reducer.rs:2364-2429 | in every run a turn has at most as many turn events as configuration facts, as profile facts and as completions for it |
| `TurnTheorems.ExactlyOneTurnEvent` | engine/analytics/src/reducer.rs:2364-2429 | the three prerequisites in any order among any messages: no event before the last, one at the last if and only if the turn can be attributed, and then never another |
| `TurnContextTheorems.KnownTurnIsReported` | engine/analytics/src/reducer.rs:2364-2417 | told from the start: if every thread the messages name for a turn has its context at the outset and its starts are answered on initialized connections, the turn event is emitted at the last prerequisite and is the only one |
| `TurnTheorems.LastPrerequisiteEmits` | engine/analytics/src/reducer.rs:2364-2417 | the step bringing the last prerequisite emits if and only if thread metadata and an initialized connection are there |
| `TurnTheorems.StepSpends` | engine/analytics/src/reducer.rs:2417-2428 | a turn event uses up stored prerequisites; only a fact supplying one can store it |
| `TurnTheorems.QuietStepStores` | engine/analytics/src/reducer.rs:1987-1994 | while a turn has no event, no message drops its state or a prerequisite in it |
| `TurnLifetime.TurnKeptIff` | engine/analytics/src/reducer.rs:2417-2435 | right after its event a turn is kept if and only if some tool item of that turn was started at a valid time and has not completed since |
| `TurnLifetime.KnownIff` | engine/analytics/src/reducer.rs:1987-1994 | in every run, exactly when a turn is known: introduced, kept at its event, dropped with its last running item |
| `ToolRecords.OutlivingItemIsRecorded` | engine/analytics/src/reducer.rs:1904-1995 | a tool item started before the event of its turn and completed after it, its thread in context, is recorded |
| `TurnLifetime.EventIffDue` | engine/analytics/src/reducer.rs:2364-2417 | in every run a message emits the event of a turn exactly if it is due: the message may complete it, it is not out yet, all it waits for was given since the state of the turn began, and it can be attributed |
| `TurnLifetime.SnapshotTells` | engine/analytics/src/reducer.rs:2364-2417 | every turn event carries what the messages said of the turn since its state began, on the connection it is attributed to |
| `TurnLifetime.LinesTell` | engine/analytics/src/reducer.rs:2418-2421 | accepted lines are reported exactly with the turn event, if the last diff given for the turn has any, with the counts of that diff |
| `TurnLifetime.MarkTellsHistory` | engine/analytics/src/reducer.rs:2422-2429 | in every reachable state a turn is marked exactly if its event is out since its state began |
| `TurnHistory.FactsTellHistory` | engine/analytics/src/reducer.rs:1222-1269 | in every reachable state configuration, profile, completion, usage, start, diff, error and connection of a turn are what the last message about each said |
| `TurnHistory.AttributionTellsHistory` | engine/analytics/src/reducer.rs:1222-1269 | in every reachable state the thread and image count of a turn are those last named for it; an error names the thread only while none is known |
| `RunHistory.RequestsTellHistory` | engine/analytics/src/reducer.rs:1191-1220 | in every reachable state a client request is pending exactly if it was made and not settled since |
| `OtherEventTheorems.SteeredIff` | engine/analytics/src/reducer.rs:2231-2295 | a steer is reported exactly when its pending request is answered or fails, on an initialized connection and for a thread with metadata |
| `OtherEventTheorems.OutInOrder` | engine/analytics/src/reducer.rs:2025-2046 | the events of one message come out in order: tool events, the turn event, the accepted lines of the turn, anything else |
| `ToolCountTheorems.CountsAddUp` | engine/analytics/src/reducer.rs:478-512 | in every reachable state total = seven categories + control calls counted for that state of the turn, and the sub-agent count is the number of ids seen |
| `TurnHistory.TallyTellsHistory` | engine/analytics/src/reducer.rs:478-512 | in every reachable state each count of a turn is the number of completed items of its own category, sub-agents by distinct call, and its steers, interrupt time, images and skills are those of the messages since its state began |
| `ReviewTheorems.LedgerTellsHistory` | engine/analytics/src/reducer.rs:2345-2362 | in every reachable state an item has a summary exactly if, since it was last reported, a review of a command, file change or MCP call of exactly its thread, turn and item was finished; the summary counts those reviews, by the guardian and by the user, and its outcome fits the last of them |
| `ReviewTheorems.EmittedReviewFields` | engine/analytics/src/reducer.rs:1930-1986 | every emitted tool event was recorded by some message of the run, and its review fields describe the reviews finished by then for exactly its thread, turn and item since it was last reported |
| `ReviewTheorems.ResolvedAtMostOnce` | engine/analytics/src/reducer.rs:1695-1778 | from any state on, a request resolves at most once per registration across responses, permission responses and aborts |
| `RunHistory.ApprovalsTellHistory` | engine/analytics/src/reducer.rs:1569-1738 | in every reachable state an approval is pending exactly if it was registered and not resolved since, with what its request said |
| `RunHistory.FinishedIs` | engine/analytics/src/reducer.rs:2189-2343 | the review a message finishes, told from the messages: the guardian verdict, or the answer to a registered approval, an abort counting as one |
| `OtherEventTheorems.ReviewedIff` | engine/analytics/src/reducer.rs:2297-2343 | a review is reported exactly when it is finished, on a thread in context |
| `ReviewLedger.AddReviewTells` | engine/analytics/src/reducer.rs:2353-2361 | one more review turns a summary of a history into the summary of the longer history, outcome by outcome |
| `ReviewLedger.ReviewsAddUp` | engine/analytics/src/reducer.rs:2354-2358 | guardian and user reviews of any history add up to all reviews |
| `LineageTheorems.WalkTerminatesInEveryRun` | engine/analytics/src/reducer.rs:2437-2448 | if sub-agent starts name earlier-spawned parents, the walk terminates in every reachable state with the connection of the nearest ancestor-or-self that has one |
| `LineageTheorems.ContextStaysInEveryRun` | engine/analytics/src/reducer.rs:1134-1158 | a thread once resolvable, or once in context, stays so under every later message |
| `ThreadHistory.ThreadsTellHistory` | engine/analytics/src/reducer.rs:1134-1158 | in every reachable state a thread has the metadata and connection of its last opening; one never opened has those of its first start as a sub-agent and the first connection inherited |
| `ThreadHistory.OriginatorTellsHistory` | engine/analytics/src/reducer.rs:1134-1158 | in every reachable state the originator of a thread is the last one an opening gave, or else the client of its first start as a sub-agent |
| `ThreadHistory.InitializedIff` | engine/analytics/src/reducer.rs:1109-1132 | a connection is initialized exactly if a message initialized it |
| `OtherEventTheorems.InitializedIff` | engine/analytics/src/reducer.rs:2095-2145 | a thread is announced exactly when opened on an initialized connection or started as an announced sub-agent |
| `ThreadLineage.WalkTerminatesIff` | engine/analytics/src/reducer.rs:2440-2448 | the ancestor loop terminates if and only if it meets no cycle, and ends with the resolved connection |
| `ThreadLineage.SelfParentLoops` | engine/analytics/src/reducer.rs:1139-1158 | a sub-agent start naming itself as parent makes the walk run forever |
| `ThreadLineage.RankedTerminates` | engine/analytics/src/reducer.rs:2437-2446 | parents of smaller spawn rank make every walk terminate |
| `ThreadLineage.ConnectionIsNearest` | engine/analytics/src/reducer.rs:2440-2448 | a connection is resolved exactly if it is that of the first ancestor-or-self with one |
| `ThreadLineage.StaysResolvable` | engine/analytics/src/reducer.rs:1143-1158 | resolvable threads stay resolvable when connections and parents are only added |
| `ThreadLineage.ContextIff` | engine/analytics/src/reducer.rs:2468-2483 | with all connections initialized, context is metadata plus a resolvable connection |
| `ThreadLineage.SubAgentStartedGrows` | engine/analytics/src/reducer.rs:1134-1158 | a sub-agent start loses no connection, replaces no parent and refers to initialized connections only |
| `AnalyticsReducer.Reducer.constructor` | engine/analytics/src/reducer.rs:200-211 | a new reducer has taken nothing, and its state is the initial one |
| `AnalyticsReducer.Reducer.Ingest` | engine/analytics/src/reducer.rs:515-739 | taking a message extends the run by it: the maps and all events emitted so far are again those of the model run over all messages taken |
| `ReducerGuarantees.QueuesAreBounded` | engine/analytics/src/reducer.rs:780-1080 | of every reducer object: all queues, lookup maps and cell maps within 256 entries |
| `ReducerGuarantees.ToolEventsAreKept` | engine/analytics/src/reducer.rs:1032-1107 | of every reducer object: tool events recorded = emitted + queued |
| `ReducerGuarantees.OriginsAreNamed` | engine/analytics/src/reducer.rs:1012-1031 | of every reducer object: each originating response it emitted was named for the call by a response it took |
| `ReducerGuarantees.TurnEventsAreBounded` | engine/analytics/src/reducer.rs:2364-2429 | of every reducer object: no more events of a turn than facts of each prerequisite |
| `ReducerGuarantees.CountsAddUp` | engine/analytics/src/reducer.rs:478-512 | of every reducer object: the tool counts of each turn add up |
| `ReducerGuarantees.SummariesTellHistory` | engine/analytics/src/reducer.rs:2345-2362 | of every reducer object: each summary describes the reviews finished for exactly its item since the item was last reported |
| `ReducerGuarantees.WalksEnd` | engine/analytics/src/reducer.rs:2437-2448 | of every reducer object: the ancestor walk ends from every thread |
| `AnalyticsReducer.Reducer.ThreadConnectionId` | engine/analytics/src/reducer.rs:2440-2448 | the loop returns the resolved connection |
| `AnalyticsReducer.Reducer.RecordToolEvent` | engine/analytics/src/reducer.rs:1050-1081 | performs the recording step: immediate, evicting or queued |
| `AnalyticsReducer.Reducer.IngestSamplingResponseCompleted` | engine/analytics/src/reducer.rs:1002-1048 | performs the sampling step with its three loops |
| `AnalyticsReducer.Reducer.FlushQueues` | engine/analytics/src/reducer.rs:1103-1107 | hands over every queue in iteration order and keeps the lookup maps |
| `AnalyticsReducer.Reducer.CloseThread` | engine/analytics/src/reducer.rs:2002-2012 | hands over and forgets every queue of the thread, and its cells |
| `AnalyticsReducer.Reducer.MaybeEmitTurnEvent` | engine/analytics/src/reducer.rs:2364-2429 | emits for a ready turn, then marks it if items are running and deletes it otherwise |
| `AnalyticsReducer.Reducer.IngestItemCompleted` | engine/analytics/src/reducer.rs:1904-1995 | counting, reporting, clearing and retiring together perform the step of an item completion |
| `EventQueue.TrackEventRequestBatches` | engine/analytics/src/client.rs:858-879 | the requests concatenate to the input in order, none is empty, isolated events are alone, and no other such split is shorter |
| `EventQueue.AfterBounded` | engine/analytics/src/client.rs:207-210 | the dedupe set never exceeds 4096 keys |
| `EventQueue.AfterIsSinceStart` | engine/analytics/src/client.rs:197-236 | the dedupe set is exactly the keys of the calls since it was last started afresh, stated on the calls |
| `EventQueue.DedupeAnswers` | engine/analytics/src/client.rs:197-236 | never suppresses what an unbounded dedupe accepts; differs from it exactly for keys last seen before the set in force; never differs below 4096 keys |
| `EventQueue.FullSetForgets` | engine/analytics/src/client.rs:203-211 | a key that a full set holds is accepted again |
| `EventQueue.RepeatIsReported` | engine/analytics/src/client.rs:203-211 | there are calls, with 4096 keys, after which a key is reported a second time |
| `EventQueue.EmittedKeys.ShouldEnqueueAppUsed` | engine/analytics/src/client.rs:197-213 | answers and updates as the dedupe model for app calls |
| `EventQueue.EmittedKeys.ShouldEnqueuePluginUsed` | engine/analytics/src/client.rs:215-236 | answers and updates as the dedupe model for plugin calls, which clear a full set even without a key |
| `EventQueue.Drive` | engine/analytics/src/client.rs:161-178 | over any run, the requests are the concatenation of one shortest split per message, so no request mixes two messages, and together an in-order split of all the reducer emits |
| `AcceptedLines.AcceptedLineCountsFromUnifiedDiff` | engine/analytics/src/accepted_lines.rs:27-61 | the loop computes the counts of the line scanner over the lines of the text |
| `AcceptedLines.CountsOfDiff` | engine/analytics/src/accepted_lines.rs:32-55 | on the text of any structured diff the counts are the true ones, each plus one per file whose path lines follow an open hunk without a git header |
| `AcceptedLines.CountsAreExactIff` | engine/analytics/src/accepted_lines.rs:33-45 | the counts are exact if and only if there is no such file |
| `AcceptedLines.GitCountsAreExact` | engine/analytics/src/accepted_lines.rs:33-36 | the counts are exact for every diff whose files all have a git header |
| `AcceptedLines.PlainDiffIsMiscounted` | engine/analytics/src/accepted_lines.rs:43-45 | a concrete plain diff without changes is counted as one added and one deleted line |
| `AcceptedLines.CountsAddUp` | engine/analytics/src/accepted_lines.rs:33-36 | counts add up over sections that start with a git header |
| `AcceptedLines.LinesOfRender` | engine/analytics/src/accepted_lines.rs:32-32 | the lines of a printed text are its lines, up to carriage returns before line feeds |
| `RemoteWorker.RepliedExactlyOnce` | engine/app-server-client/src/remote.rs:261-374 | in every run prefix each caller whose command was taken is waiting or was replied to, exactly once; nobody else is |
| `RemoteWorker.DuplicateNeverDisplaces` | engine/app-server-client/src/remote.rs:270-277 | a request with an id in flight is refused, writes nothing and displaces nobody |
| `RemoteWorker.AnswerReachesWaiter` | engine/app-server-client/src/remote.rs:365-374 | the first answer for an id after its request goes to the caller of that request |
| `RemoteWorker.OneOutstandingPerId` | engine/app-server-client/src/remote.rs:271-285 | between two requests sent with one id an answer to that id was received |
| `RemoteWorker.NobodyLeftWaiting` | engine/app-server-client/src/remote.rs:508-516 | however the loop ended, every caller has been replied to exactly once when the worker ends |
| `RemoteWorker.WaiterGetsFirstAnswer` | engine/app-server-client/src/remote.rs:365-374 | in the end the caller has the first answer received for its id, and nothing else |
| `RemoteWorker.WaiterGetsExitReason` | engine/app-server-client/src/remote.rs:508-516 | without an answer the caller has the error the loop ended with, or a broken pipe if there was none, and nothing else |
| `RemoteWorker.EventsAreProjection` | engine/app-server-client/src/remote.rs:375-503 | while the consumer listens the queued events are exactly the in-order projection of what was received, then the disconnect notice if an error ended the loop |
| `RemoteWorker.UnknownRequestsRefused` | engine/app-server-client/src/remote.rs:387-433 | in every run the method-not-found errors on the wire are, in order, exactly one per unknown request whose refusal could be written, with its id |
| `RemoteWorker.UnwrittenRefusalIsLast` | engine/app-server-client/src/remote.rs:411-432 | a refusal that cannot be written ends the loop |
| `RemoteWorker.WireIsLog` | engine/app-server-client/src/remote.rs:263-433 | in every run the wire is, in order and with nothing else, what each input asks for: the request if its id is free, the notification, response or error of a command, or the refusal of an unknown request, each if it can be written |
| `RemoteWorker.OneOutstandingOnWire` | engine/app-server-client/src/remote.rs:270-302 | between any two requests with one id on the wire an answer to that id was received |
| `RemoteWorker.PendingIff` | engine/app-server-client/src/remote.rs:270-374 | someone waits under an id exactly while a request with it was sent and is unanswered |
| `RemoteWorker.CallerIsTold` | engine/app-server-client/src/remote.rs:263-358 | a caller that is not left waiting is told at once what became of its command, and in the end nothing else |
| `RemoteWorker.LoopEndsIff` | engine/app-server-client/src/remote.rs:261-506 | the loop goes on exactly until an input that ends it, told by the input, with the error of that input |
| `RemoteWorker.ConsumerOpenIff` | engine/app-server-client/src/remote.rs:999-1009 | the consumer is there exactly if it was not dropped |
| `RemoteClient.WorkerTask.constructor` | engine/app-server-client/src/remote.rs:257-260 | a fresh worker waits for nobody |
| `RemoteClient.WorkerTask.DeliverEvent` | engine/app-server-client/src/remote.rs:999-1009 | queues an event unless the consumer is gone |
| `RemoteClient.WorkerTask.FailWith` | engine/app-server-client/src/remote.rs:293-300 | queues the disconnect and sets the exit error |
| `RemoteClient.WorkerTask.HandleCommand` | engine/app-server-client/src/remote.rs:263-359 | taking a command is the model step, whose writes, replies and end the laws of `RemoteWorker` tell from the inputs |
| `RemoteClient.WorkerTask.Write` | engine/app-server-client/src/remote.rs:303-345 | writes one message and tells its caller |
| `RemoteClient.WorkerTask.CompleteRequest` | engine/app-server-client/src/remote.rs:365-374 | an answer goes to whoever waits under its id |
| `RemoteClient.WorkerTask.HandleMessage` | engine/app-server-client/src/remote.rs:364-435 | taking a decoded message is the model step |
| `RemoteClient.WorkerTask.HandleFrame` | engine/app-server-client/src/remote.rs:361-503 | taking a frame is the model step |
| `RemoteClient.WorkerTask.TakeInput` | engine/app-server-client/src/remote.rs:261-506 | one turn of the select loop is the model step |
| `RemoteClient.WorkerTask.Loop` | engine/app-server-client/src/remote.rs:261-506 | the loop takes inputs up to the one that ends it and reaches the state of the model run |
| `RemoteClient.WorkerTask.FailPending` | engine/app-server-client/src/remote.rs:508-516 | everyone left gets the exit reason once, and the map is empty |
| `RemoteClient.WorkerTask.Work` | engine/app-server-client/src/remote.rs:257-517 | over the whole task every caller taken is replied to exactly once and nobody else |
| `RemoteClient.PassOn` | engine/app-server-client/src/remote.rs:905-938 | keeps a known event and refuses an unknown request |
| `RemoteClient.InitializeRemoteConnection` | engine/app-server-client/src/remote.rs:844-990 | connects if and only if both own writes succeed and a response to the own id comes before any rejection of it, unreadable text, close, transport failure, end of stream or refusal that fails; keeps the events before it in order and refuses each unknown request once; each failure is given by its frame, by the time or by the own write |
| `RemoteClient.VerdictIs` | engine/app-server-client/src/remote.rs:872-945 | what each frame decides in the handshake, on the frame itself: accepted, rejected, broken or nothing |
| `RemoteClient.Client.constructor` | engine/app-server-client/src/remote.rs:519-525 | the stream starts with the events of the handshake |
| `RemoteClient.Client.Enqueue` | engine/app-server-client/src/remote.rs:999-1009 | an event of the worker joins the end of the stream |
| `RemoteClient.Client.Close` | engine/app-server-client/src/remote.rs:508-517 | the end of the worker closes the stream |
| `RemoteClient.Client.NextEvent` | engine/app-server-client/src/remote.rs:636-641 | gives the first event not read yet, handshake events first; the end exactly once all is read and the worker has ended; otherwise waits |
| `RemoteClient.StreamIsProjection` | engine/app-server-client/src/remote.rs:375-503 | the handshake events and the worker events together are exactly what the consumer can read |
| `RemoteClient.Session` | engine/app-server-client/src/remote.rs:236-525 | handshake, worker and consumer in any interleaving: it serves if and only if the handshake frames say so, and fails as its decisive frame says; what is read is an initial part of the in-order projection of everything received plus the disconnect notice, and all of it once the end is told |
| `RemoteClient.Serve` | engine/app-server-client/src/remote.rs:252-525 | any interleaving of worker inputs and consumer reads keeps stream, events and answers in step |
| `RemoteClient.WorkOn` | engine/app-server-client/src/remote.rs:257-517 | one input reaches the consumer; if it ends the loop, everyone waiting is failed and the stream closed |
| `AgentRoles.RolesClosedForm` | engine/agent-roles/src/loader.rs:34-117 | each field of a role is what the highest layer that sets it says, counting only from the first layer that described the role; the role has a description |
| `AgentRoles.ExistsIffDescribed` | engine/agent-roles/src/loader.rs:100-113 | a role exists exactly if some layer supplies its description |
| `AgentRoles.RolesOnlyGrow` | engine/agent-roles/src/loader.rs:100-113 | a later layer removes no role and unsets no field |
| `AgentRoles.EarlyFieldsAreLost` | engine/agent-roles/src/loader.rs:105-111 | concretely, a nickname set below the first description is lost |
| `AgentRoles.MergeAllIsStack` | engine/agent-roles/src/loader.rs:100-113 | the merge treats each role independently of the others |
| `AgentRoles.LayerSays` | engine/agent-roles/src/loader.rs:46-164 | what a layer says of a role: its first well-formed declaration under the name, the role file deciding the name and going before the entry field by field; else the first readable file of the name that no declaration claims; else nothing |
| `AgentRoles.LoadAgentRoles` | engine/agent-roles/src/loader.rs:23-117 | with layers, loads their merge and gives every warning exactly as often as what the layers offer calls for; without, loads the plain configuration strictly |
| `AgentRoles.LoadAgentRolesWithoutLayers` | engine/agent-roles/src/loader.rs:125-145 | loads exactly if every role is well formed, described and uniquely named; otherwise the first declaration that is not decides the error |
| `AgentRoles.ApplyLayer` | engine/agent-roles/src/loader.rs:35-113 | reading and merging one layer gives the merge and its warnings, one for each role left undescribed |
| `AgentRoles.ReadLayer` | engine/agent-roles/src/loader.rs:36-98 | the roles of a layer, first of each name, declared before discovered; everything offered becomes a role or one warning of its own kind |
| `AgentRoles.ReadDeclaredRoles` | engine/agent-roles/src/loader.rs:46-72 | each declaration becomes a role or one warning, that it is malformed or that its name is taken; names the claimed role files |
| `AgentRoles.TakeDeclaration` | engine/agent-roles/src/loader.rs:47-71 | the first well-formed declaration under a name becomes a role, any other is warned about; a role file is claimed either way |
| `AgentRoles.AddFoundRoles` | engine/agent-roles/src/loader.rs:74-97 | adds discovered roles whose name is free, and warns once of each name that is both declared and found |
| `AgentRoles.DiscoverAgentRolesInDir` | engine/agent-roles/src/loader.rs:290-336 | each unclaimed file becomes a role or one warning, that it is unreadable or that its name is taken in the directory |
| `AgentRoles.TakeFile` | engine/agent-roles/src/loader.rs:298-333 | the first unclaimed file of a name becomes a role, any other unclaimed one is warned about |
| `AgentRoles.MergeRoles` | engine/agent-roles/src/loader.rs:100-113 | merges each role with what lies below, dropping exactly the undescribed ones with one warning each |
| `AgentRoles.MergeMissingRoleFields` | engine/agent-roles/src/loader.rs:166-173 | fills in only fields that are unset |
| `LintWrapper.RebuildIff` | tools/argument-comment-lint/wrapper_common.py:55-122 | parsing and building the built arguments returns them unchanged for every argument list, if and only if the manifest path is not the separator or is not used |
| `LintWrapper.ParseMeans` | tools/argument-comment-lint/wrapper_common.py:55-104 | the parse told from the arguments alone: split at the first separator; each flag holds exactly if an option with its value, in one argument or two, or a switch stands there that is not itself the value of another option; a target is selected exactly if a cargo argument does |
| `LintWrapper.BuildAdds` | tools/argument-comment-lint/wrapper_common.py:107-122 | told by parsing the output: the given arguments are kept in place and exactly what is missing is added |
| `LintWrapper.ParseWrapperArgs` | tools/argument-comment-lint/wrapper_common.py:55-104 | the loop computes the closed-form parse |
| `LintWrapper.TakeArg` | tools/argument-comment-lint/wrapper_common.py:60-102 | one argument advances the parser variables over the closed-form parse |
| `LintWrapper.TakeLintArg` | tools/argument-comment-lint/wrapper_common.py:75-102 | one lint argument is the value of the option before it or an option of its own |
| `LintWrapper.BuildFinalArgs` | tools/argument-comment-lint/wrapper_common.py:107-122 | builds defaults, lint arguments and cargo arguments in order |
| `LintWrapper.ParseOfBuild` | tools/argument-comment-lint/wrapper_common.py:55-122 | built arguments parse back into the same lint and cargo arguments |
| `LintWrapper.BuiltIsComplete` | tools/argument-comment-lint/wrapper_common.py:107-122 | the builder has no default left to add to its own output |
| `LintWrapper.SeparatorAsManifestGrows` | tools/argument-comment-lint/wrapper_common.py:111-122 | with the separator as manifest path the arguments grow at every rebuild |

## Left out

- Event payloads beyond the fields above (client and runtime metadata, durations, tool-specific counts, turn parameters): field copying.
- AnalyticsReducer.Reducer.Ingest: facts that only turn their input into an event (artifacts, compaction, goals, thread hints, apps, hooks, plugins, measurements, archive notices, imports, guardian facts) are one `Unrelated` message without effect.
- Skill invocations other than implicit resource ones, and the event each invocation emits: git lookups and hashing.
- Connection metadata: connections are a set of initialized ids.
- Tables from approval decisions and guardian actions to status, resolution, subject and request flags: their results are inputs.
- HTTP sending, authentication, the filter for API-key authentication, capture files and queue overflow in the analytics client.
- WebSocket framing, TLS, timeouts, task abort, request serialization and the text of error messages in the remote client; commands still in the channel when the worker ends.
- Reading, listing and parsing role files and configuration, and errors listing a directory: the loader gets them listed and parsed; the order and text of warnings are not modelled.
- The lint wrapper's environment handling, tool lookup and process execution.
- The agent graph store, the in-process client, agent identity, the daemon and the shell: forwarding, library calls or plumbing.
