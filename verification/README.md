# A verified model of the agent host

This project models the parts of the agent host that keep state across many steps, and proves what they
keep. Everything is in Dafny; `dafny verify dfyconfig.toml` checks it.

* **Session tree store** (`SessionLog`, `SessionContext`, `SessionManager`, `SessionBranching`, `SessionCuts`,
  `SessionTree`).
  The append-only log with parent pointers is a value; its indexes, paths and contexts are functions of it.
  The class `SessionManager` has the source's fields and methods, and every method states the whole new
  state. Proved over the log: the file mirrors it, the context is incremental, branching and export keep
  meaning, and the tree holds every entry once.
* **Agent loop** (`AgentEvents`, `Agents`, `ToolBatch`, `BatchOrder`, `AgentLoop`, `AgentRuns`, `AgentTurns`,
  `AgentPrompts`). A run is
  described turn by turn by a function of what the environment does: the streams, tool outcomes, interleavings,
  stop decisions and what the user sends (`TurnPlan`). The nested loops are methods proved to carry out that
  description, with the events as a ghost trace. The theorems about runs are about every plan. A plan that
  is used up before the run ends leaves the run waiting for its next response. `AgentTurns` says without that
  description when a run ends and what each request holds.
* **Retry machine** (`RetryMachine`, `RetryStreaks`, `RetriedRuns`). A state machine over events, handlers, timers and
  aborts in any order, and the session's handlers as a class that takes its steps. `RetryStreaks` tells the counter,
  the backoffs and the promise from the actions alone. What the machine asks of a run, that responses come only where
  the transcript could be sent, is proved of the agent loop's runs in `RetriedRuns`.
* **Settings and credentials** (`SettingsManager`, `AuthStorage`). Read-merge-write under a lock, with other
  writers between any two steps.
* **Single algorithms** (`Artifacts`, `WorkerPool`, `BashOutput`, `ProxyStream`, `ProxyHistory`).

Where the code does not do what one would expect, the model follows the code, and a lemma says exactly when:

* Labels are taken out of a branched session without linking what follows them to what precedes them, so it
  starts at the last entry that hangs on a label (`LabelInTheMiddleLosesHistory`). Its path is whole exactly if
  no label interrupts the old one (`BranchKeepsPath`), and its context is the old one exactly if nothing before
  that entry showed (`BranchContext`).
* A file opened without an assistant message is written a second time by the first one, unless that is the
  first append (`OpenedWithoutAssistant`, `OpenedFileStaysExact`, `HeaderWrittenTwice`, `ResumeAndAppend`).
* A stream that starts its message more than once leaves stale partial messages in the loop's context and
  breaks the bracketing of messages (`TranscriptsAgree`, `TraceFollowsGrammar`, `DoubleStartLeavesPartial`).
* The retry timer is rejected if it fires before the ended run has finished with its listeners
  (`SlowListenerOrphansThePromise`). A pending promise is left alone exactly if that was the last thing on its
  way, until a new run or an abort (`StepAttends`, `RetriesAreBoundedAndAttended`).
* A setter called while a reload waits for earlier writes can be overtaken by it: its value reaches the file and
  not the memory (`OvertakenSetter`), exactly if the file had another value when it was read (`ReloadRaces`).
* A tool call delta after the end of its block continues the text "undefined" (`ArgumentsComeFromDeltas`,
  `DeltaAfterEnd`).
* Two stores that draw the same id again list different artifacts (`StoresAgree`).

That no command output is lost rests on the decoder: cleaned text must not be longer than the bytes it comes
from, as holds of UTF-8 and of cleaning that only removes characters. `NothingIsLost` says which pieces a
decoder without that property would lose.

Identifiers are opaque: an id that is generated is a parameter that nothing in the session mentions. Times,
tool outcomes, streams, interleavings, the token endpoint and the file system are parameters or values, a
lock makes its section one step.

## Model

| member | source | states |
|---|---|---|
| `SessionLog.AncestryUnfold` | packages/agent-host/src/session-manager.ts:1034-1043 | looking up the parent again and again climbs exactly the path of the log to an entry, in every ordered log |
| `SessionLog.AncestryAppend` | packages/agent-host/src/session-manager.ts:821-826 | an append extends the path to its parent by one entry and leaves the path to every other entry as it was |
| `SessionLog.AncestryShape` | packages/agent-host/src/session-manager.ts:1034-1043 | a path is linked parent to child, repeats no entry, lies in the log and ends at the leaf, so walks terminate |
| `SessionLog.AncestryReachesRoot` | packages/agent-host/src/session-manager.ts:1034-1043 | where every parent is in the log, every path starts at an entry without a parent |
| `SessionLog.IndexLookup` | packages/agent-host/src/session-manager.ts:754-773 | with distinct ids the rebuilt id index finds each entry of the log |
| `SessionLog.LabelIsLastChange` | packages/agent-host/src/session-manager.ts:763-771 | the label index holds for each target the last change in the log, with its time, or nothing if that change cleared it |
| `SessionLog.LabelsWithoutChange` | packages/agent-host/src/session-manager.ts:763-771 | an entry no label entry names has no label |
| `SessionLog.LabelsAreNotEmpty` | packages/agent-host/src/session-manager.ts:763-771 | no empty label is ever indexed |
| `SessionLog.FileMirrorsLog` | packages/agent-host/src/session-manager.ts:801-819 | from a fresh session, or a file that holds an assistant message, every run of appends leaves no file before the first assistant message and exactly the log in it afterwards |
| `SessionLog.OpenedWithoutAssistant` | packages/agent-host/src/session-manager.ts:698-728 | what a file opened without an assistant message holds after the first one: the log once if that message came first, else the old file twice |
| `SessionLog.OpenedFileStaysExact` | packages/agent-host/src/session-manager.ts:698-728 | an opened file stays equal to the log exactly if it holds an assistant message or the first append is one |
| `SessionLog.HeaderWrittenTwice` | packages/agent-host/src/session-manager.ts:698-728 | a file with a header alone, then a user message and an answer: the file has the header twice |
| `SessionContext.CollectPath` | packages/agent-host/src/session-manager.ts:346-352 | the walk over the index collects the path of the log to the leaf, root first, and stops at a missing parent |
| `SessionContext.ScanPath` | packages/agent-host/src/session-manager.ts:354-369 | one pass finds thinking level, model and last compaction of a path |
| `SessionContext.EmitKept` | packages/agent-host/src/session-manager.ts:397-407 | of the entries before a compaction, exactly those from the first kept one on show |
| `SessionContext.EmitMessages` | packages/agent-host/src/session-manager.ts:371-419 | the messages of a path, with the summary first if it has a compaction |
| `SessionContext.BuildSessionContext` | packages/agent-host/src/session-manager.ts:315-422 | for a given or a rebuilt index the loops give the context of the path to the leaf; an unknown leaf falls back to the last entry, null to nothing |
| `SessionContext.ContextGrows` | packages/agent-host/src/session-manager.ts:371-419 | appending anything but a compaction adds exactly what the entry shows, and nothing for settings, labels, info and custom entries |
| `SessionContext.ContextCompacts` | packages/agent-host/src/session-manager.ts:390-413 | appending a compaction gives its summary and then the visible entries from its first kept entry on |
| `SessionContext.LevelIsLastSet` | packages/agent-host/src/session-manager.ts:359-361 | the thinking level is the one set last on the path |
| `SessionContext.ModelIsLastSet` | packages/agent-host/src/session-manager.ts:359-365 | the model is the one set last on the path, by a model change or an assistant message |
| `SessionContext.SettingsDefault` | packages/agent-host/src/session-manager.ts:354-365 | without an entry that sets them the level is off and there is no model |
| `SessionContext.AppendedShows` | packages/agent-host/src/session-manager.ts:378-388 | per kind of entry, what it adds: the message itself, a custom message or a non-empty branch summary with all their fields, or nothing |
| `SessionContext.CompactedShows` | packages/agent-host/src/session-manager.ts:390-413 | after a compaction the context is its summary, with its fields, and what the path shows from the first kept entry on, or nothing of it if that entry is not there |
| `SessionContext.ContextLeaf` | packages/agent-host/src/session-manager.ts:328-344 | a known id gives the context there, an unknown or missing one that of the last entry, null and an empty log the defaults |
| `SessionManager.SessionManager.constructor` | packages/agent-host/src/session-manager.ts:682-696 | a new session is valid and durable; an opened file with a header first gives all its lines, its id, rebuilt indexes and its last entry as leaf, with the disk untouched; any other present file becomes one new header |
| `SessionManager.SessionManager.NewSession` | packages/agent-host/src/session-manager.ts:730-752 | a new session has one header, empty indexes, no leaf and no file yet |
| `SessionManager.SessionManager.SetSessionFile` | packages/agent-host/src/session-manager.ts:698-728 | a file with a header first is kept line by line and not written; an empty or headerless one becomes exactly one new header, in memory and on disk; a missing one waits for its first write |
| `SessionManager.SessionManager.BuildIndex` | packages/agent-host/src/session-manager.ts:754-773 | the loop rebuilds both indexes and the leaf from the log |
| `SessionManager.SessionManager.Persist` | packages/agent-host/src/session-manager.ts:801-819 | one append brings the file forward by one step of the deferred protocol |
| `SessionManager.SessionManager.AppendEntry` | packages/agent-host/src/session-manager.ts:821-826 | an append keeps log, id index, path, context and file in step |
| `SessionManager.SessionManager.Append` | packages/agent-host/src/session-manager.ts:834-921 | every append method: the entry hangs on the old leaf and becomes the leaf; path and context grow by it; the session stays valid and durable |
| `SessionManager.SessionManager.AppendLabelChange` | packages/agent-host/src/session-manager.ts:1006-1027 | a label change is an append that also updates the label index, and an error for an unknown target changes nothing |
| `SessionManager.SessionManager.GetBranch` | packages/agent-host/src/session-manager.ts:1034-1043 | the branch of an entry, or of the leaf, is its path in the log |
| `SessionManager.SessionManager.GetContext` | packages/agent-host/src/session-manager.ts:1049-1051 | the context of a session is that of its branch |
| `SessionManager.SessionManager.GetEntries` | packages/agent-host/src/session-manager.ts:1066-1068 | all entries without headers, in order |
| `SessionManager.SessionManager.BranchFrom` | packages/agent-host/src/session-manager.ts:1125-1130 | branching moves the leaf to an existing entry and nothing else |
| `SessionManager.SessionManager.ResetLeaf` | packages/agent-host/src/session-manager.ts:1137-1139 | after a reset the branch is empty and the session stays valid |
| `SessionManager.SessionManager.BranchWithSummary` | packages/agent-host/src/session-manager.ts:1146-1163 | the branch becomes the target's path and the summary, in the context as well; an unknown target changes nothing |
| `SessionManager.SessionManager.CreateBranchedSession` | packages/agent-host/src/session-manager.ts:1170-1262 | the session is replaced by a header that names the old file, the path without labels and a chain of re-created labels; the file is written now exactly if it holds an assistant message |
| `SessionManager.AppendFacts` | packages/agent-host/src/session-manager.ts:821-826 | what an append below the leaf means for order, both indexes, paths and contexts at once |
| `SessionManager.Reopen` | packages/agent-host/src/session-manager.ts:698-773 | opening the file again after an append finds the same log, index, labels, leaf and context |
| `SessionManager.ResumeAndAppend` | packages/agent-host/src/session-manager.ts:698-826 | a file without an assistant message is opened and appended to: with the first response the file holds the log, or, after any other append, the old file and the log |
| `SessionManager.ExportToJsonl` | packages/agent-host/src/agent-session-impl.ts:3045-3073 | an exported branch is a header and the re-chained branch; it reads back as an ordered log whose context is that of the branch |
| `SessionBranching.BranchedShape` | packages/agent-host/src/session-manager.ts:1178-1226 | the branched log is ordered; it is one chain exactly if the path without its labels is |
| `SessionBranching.LinkedUnlessInterrupted` | packages/agent-host/src/session-manager.ts:1178 | filtering labels keeps a path linked exactly if no label lies between two other entries |
| `SessionBranching.BranchKeepsPath` | packages/agent-host/src/session-manager.ts:1170-1262 | the new session's path is its whole log exactly if no label interrupts the old path |
| `SessionBranching.ContextWithoutLabels` | packages/agent-host/src/session-manager.ts:1178 | filtering labels keeps the context exactly if the last compaction does not keep from a label that something visible follows |
| `SessionBranching.BranchKeepsContext` | packages/agent-host/src/session-manager.ts:1170-1262 | on a path no label interrupts, branching keeps the context exactly if no compaction keeps from a label |
| `SessionBranching.BranchKeepsLabels` | packages/agent-host/src/session-manager.ts:1194-1220 | the branched session labels exactly the carried entries that had a label, with the same text and time |
| `SessionBranching.KeptConcat` | packages/agent-host/src/session-manager.ts:1193-1199 | labels are carried over in the order of the index |
| `SessionBranching.ChainRepeats` | packages/agent-host/src/session-manager.ts:1201-1216 | each re-created label repeats target, text and time, and hangs on the one before or on the last entry |
| `SessionCuts.BranchStartsAtCut` | packages/agent-host/src/session-manager.ts:1170-1262 | on any path the new session's path is its log from the last entry that hangs on a label, and shows what the old path shows from there on |
| `SessionCuts.ContextUnseen` | packages/agent-host/src/session-manager.ts:315-422 | losing the first part of a path keeps the context exactly if nothing of that part showed: no message it contributed, no level or model still in force |
| `SessionCuts.BranchContext` | packages/agent-host/src/session-manager.ts:1170-1262 | on any path the branched session has the old context exactly if nothing before the cut showed |
| `SessionCuts.BranchingPreservesMeaning` | packages/agent-host/src/session-manager.ts:1170-1262 | for any session log and any leaf in it: the branched session's path, context and labels, each with its exact condition |
| `SessionBranching.BrokenPathIsSuffix` | packages/agent-host/src/session-manager.ts:1034-1043 | where a parent was not carried over, only what follows it is on the new path |
| `SessionBranching.LabelInTheMiddleLosesHistory` | packages/agent-host/src/session-manager.ts:1178 | a message, a label and a message: the branched session has lost the first message |
| `SessionBranching.RechainShape` | packages/agent-host/src/agent-session-impl.ts:3063-3069 | a re-chained branch is one ordered chain from a root, with the same ids and bodies |
| `SessionBranching.ExportKeepsContext` | packages/agent-host/src/agent-session-impl.ts:3063-3069 | re-chaining keeps the context, whatever entries lie on the branch |
| `SessionTree.SortPermutes` | packages/agent-host/src/session-manager.ts:1108 | sorting children loses and repeats none |
| `SessionTree.SortedKidsInOrder` | packages/agent-host/src/session-manager.ts:1108 | children end up oldest first, and those of one time in log order |
| `SessionTree.ChildListsDescend` | packages/agent-host/src/session-manager.ts:1075-1113 | children come after their parent in the log, so the tree is finite |
| `SessionTree.TreeHoldsEveryEntryOnce` | packages/agent-host/src/session-manager.ts:1075-1113 | flattening the tree is a permutation of the log, orphans included as roots |
| `SessionTree.TreePathsAreBranches` | packages/agent-host/src/session-manager.ts:1075-1113 | every way down from a root spells the branch of the node it reaches |
| `SessionTree.GrownDressed` | packages/agent-host/src/session-manager.ts:1075-1113 | every node has the label and label time of its entry, and its children hang on it, oldest first |
| `SessionTree.RootsInLogOrder` | packages/agent-host/src/session-manager.ts:1086-1101 | roots stay in log order |
| `SessionTree.Link` | packages/agent-host/src/session-manager.ts:1086-1101 | the first loop finds the roots and gives each entry its children in log order |
| `SessionTree.SortAll` | packages/agent-host/src/session-manager.ts:1103-1110 | the stack reaches every node once, so all child lists are sorted |
| `SessionTree.GetTree` | packages/agent-host/src/session-manager.ts:1075-1113 | the tree holds every entry once, its paths are branches, its nodes carry their labels |
| `AgentEvents.TranscriptIsDelivered` | packages/agent/src/agent.ts:495-543 | after any events the transcript is what it was and the messages that ended, in order |
| `AgentEvents.StreamingIsLast` | packages/agent/src/agent.ts:495-543 | the streaming message is the one that last started or changed, until it or the run ends |
| `AgentEvents.ErrorIsLast` | packages/agent/src/agent.ts:524-528 | the error is that of the last turn that ended with one |
| `AgentEvents.PendingIsLast` | packages/agent/src/agent.ts:505-522 | an id is pending from its last start to the next end under that id |
| `AgentEvents.PendingIsUnderWay` | packages/agent/src/agent.ts:505-522 | an id is pending only while an execution with that id is under way, although the set forgets repetitions |
| `AgentEvents.NothingPendingAtTurnEnd` | packages/agent/src/agent.ts:505-522 | in a trace whose tool events match, nothing is pending before or after a turn end |
| `Agents.Drained` | packages/agent/src/agent.ts:126-139 | a poll takes a prefix of the queue, and something whenever there is something: all of it in one mode, at most one message in the other |
| `Agents.PendingMessageQueue.Drain` | packages/agent/src/agent.ts:126-139 | what is drained and what stays make up the old queue in order; one mode empties the queue, the other takes one message |
| `Agents.PendingMessageQueue.Enqueue` | packages/agent/src/agent.ts:118-120 | a message joins the end of its queue |
| `Agents.Agent.ProcessEvents` | packages/agent/src/agent.ts:495-543 | the agent's fields are the reduction of its events |
| `Agents.Agent.Receive` | packages/agent/src/agent.ts:252-260 | what the user sends joins the right queue; mode changes take effect in order |
| `ToolBatch.OneCallKeepsTheLoopGoing` | packages/agent/src/agent-loop.ts:511-513 | one refused call, or one failed call whose hook does not ask to stop, keeps the loop going |
| `Messages.CallsAreBlocks` | packages/agent/src/agent-loop.ts:200 | the tool calls of a response are its call blocks, each once, in order |
| `ToolBatch.ResultsTell` | packages/agent/src/agent-loop.ts:618-690 | each result message names its call and tells its output or failure as the hook left it; refused, thrown and hook failures are errors unless the hook decides otherwise |
| `ToolBatch.FinalizeExecutedToolCall` | packages/agent/src/agent-loop.ts:618-661 | the hook after a call replaces parts of its result; a hook that throws makes it an error |
| `ToolBatch.ExecuteOne` | packages/agent/src/agent-loop.ts:383-414 | one call: its start, its updates, its end and its result message, in this order |
| `ToolBatch.ExecuteSequential` | packages/agent/src/agent-loop.ts:372-422 | results and stop decision are those of the calls in source order |
| `ToolBatch.Prepare` | packages/agent/src/agent-loop.ts:434-451 | preparation starts every call in order and ends refused ones at once |
| `ToolBatch.RunSchedule` | packages/agent/src/agent-loop.ts:453-471 | whatever the order in which executions report and finish, each slot gets the result of its own call |
| `ToolBatch.ExecuteParallel` | packages/agent/src/agent-loop.ts:424-483 | for every interleaving the results and the stop decision are those of sequential execution |
| `ToolBatch.ExecuteToolCalls` | packages/agent/src/agent-loop.ts:350-365 | both modes give the same results and decision |
| `ToolBatch.SequentialFacts` | packages/agent/src/agent-loop.ts:372-422 | a sequential batch delivers its results in order and its tool events match |
| `ToolBatch.ScheduleFacts` | packages/agent/src/agent-loop.ts:453-471 | at every point of an interleaving the open executions are exactly those started and not finished |
| `ToolBatch.ParallelFacts` | packages/agent/src/agent-loop.ts:424-483 | a parallel batch delivers its results in source order and leaves no execution open |
| `BatchOrder.CallIsBracketed` | packages/agent/src/agent-loop.ts:383-414 | the events of one call one by one: start, each report, end, and the result that tells how it went |
| `BatchOrder.StepsAreReported` | packages/agent/src/agent-loop.ts:454-466 | each step of an execution gives one event under its id |
| `BatchOrder.CallsStartInOrder` | packages/agent/src/agent-loop.ts:372-483 | in either mode each call starts once, in source order |
| `BatchOrder.SequentialIsOneByOne` | packages/agent/src/agent-loop.ts:372-422 | in the sequential mode at most one execution is open at any time |
| `BatchOrder.ParallelIsAllAtOnce` | packages/agent/src/agent-loop.ts:424-483 | in the parallel mode there is a point where all calls have started, nothing is delivered, and all prepared executions are open |
| `AgentLoop.RespondFacts` | packages/agent/src/agent-loop.ts:252-345 | a response leaves context, events and message in step exactly if its stream starts its message at most once; each further start leaves a stale partial behind |
| `AgentLoop.HeardIsPrefix` | packages/agent/src/agent-loop.ts:285-334 | a stream is heard up to its first terminal event |
| `AgentLoop.StreamIsPassedOn` | packages/agent/src/agent-loop.ts:285-316 | from its first start on, each stream event gives the agent event with the same partial message, the last of which stands at the end of the context |
| `AgentLoop.LoopRun.StreamAssistantResponse` | packages/agent/src/agent-loop.ts:282-345 | the stream loop pushes, overwrites and finishes the partial message as described, up to the first terminal event |
| `AgentLoop.LoopRun.InjectPending` | packages/agent/src/agent-loop.ts:174-189 | pending messages go to context, new messages and events in order, in a turn that has been opened once |
| `AgentLoop.LoopRun.RunTurn` | packages/agent/src/agent-loop.ts:174-227 | one turn of the inner loop, with the failed response and the tool batch |
| `AgentLoop.LoopRun.Poll` | packages/agent/src/agent-loop.ts:165 | the steering poll takes what the mode allows, after everything sent before it |
| `AgentLoop.LoopRun.FollowUpPoll` | packages/agent/src/agent-loop.ts:233-246 | without follow-ups the run ends; with some it goes on with them |
| `AgentLoop.LoopRun.RunLoop` | packages/agent/src/agent-loop.ts:155-246 | the nested loops carry out the turn-by-turn description of a run for every plan of responses, outcomes, arrivals and stops; what that description does is stated without it in `AgentTurns` |
| `AgentRuns.AnswerSound` | packages/agent/src/agent-loop.ts:252-345 | a response adds exactly its surplus starts to the difference between context and new messages |
| `AgentRuns.TurnSound` | packages/agent/src/agent-loop.ts:172-227 | a turn keeps events, new messages and context in step |
| `AgentRuns.TranscriptsAgree` | packages/agent/src/agent-loop.ts:155-345 | ended messages, new messages and the agent's transcript always agree; the loop's context agrees with them exactly if no stream starts its message twice |
| `AgentRuns.TraceFollowsGrammar` | packages/agent/src/agent-loop.ts:109-246 | the trace is a complete run exactly if the run is over and no stream starts its message twice |
| `AgentRuns.DoubleStartLeavesPartial` | packages/agent/src/agent-loop.ts:252-345 | a run of one answer whose stream starts twice leaves one partial message more in the context than it adds, and no well-formed trace |
| `AgentRuns.CompleteTrace` | packages/agent/src/agent-loop.ts:109-246 | a complete trace has one agent start, first, and one agent end, last |
| `AgentRuns.EndsWithItsMessages` | packages/agent/src/agent-loop.ts:196-246 | a run that is over ended with an agent end that carries all its new messages, and injected everything it took |
| `AgentRuns.NoToolPendingAtTurnEnd` | packages/agent/src/agent.ts:505-522 | in every run tool events match and no tool call is pending at a turn end, with repeated ids as well |
| `AgentRuns.ToolResultsFollowTheirCalls` | packages/agent/src/agent-loop.ts:190-219 | in every run each response is followed at once by one result for each of its calls, in order; a failed response is last; no other results occur |
| `AgentRuns.ScheduleDoesNotMatter` | packages/agent/src/agent-loop.ts:350-483 | plans that differ only in mode and interleaving give the same messages, requests, context and queues |
| `AgentRuns.QueuesConserve` | packages/agent/src/agent-loop.ts:165-243 | at any point of a run what went into a queue is injected, about to be injected or waiting, oldest first |
| `AgentRuns.QueuesAtTheEnd` | packages/agent/src/agent-loop.ts:165-246 | at the end of a run the queue's history is what was delivered from it followed by what it still holds, for both modes and mode changes |
| `AgentRuns.EveryRequestCanBeSent` | packages/agent/src/agent-loop.ts:172-231 | without assistant messages from the user side, every request is non-empty and does not end with the assistant; so does the transcript without a failed last response |
| `AgentTurns.RunEndsWhen` | packages/agent/src/agent-loop.ts:190-246 | a turn ends the run exactly if its response failed, the caller stops it, or every tool call asks to stop and no steering message, and after that no follow-up, is there |
| `AgentTurns.InjectedNext` | packages/agent/src/agent-loop.ts:203-243 | what the next turn injects: steering messages if there are any, nothing if a tool call wants an answer, else follow-ups; all or one by the mode at that time |
| `AgentTurns.LastModeSet` | packages/agent/src/agent.ts:234-245 | a queue has the mode it was given last |
| `AgentTurns.OneRequestATurn` | packages/agent/src/agent-loop.ts:172-192 | a run that is not over makes exactly one more request for each further turn |
| `AgentTurns.FirstRequest` | packages/agent/src/agent-loop.ts:155-192 | the first request is the transcript, the prompts, and what the poll before the first turn takes, if it is not skipped |
| `AgentTurns.NextRequest` | packages/agent/src/agent-loop.ts:172-219 | every later request is the one before, stale partials, its response, one telling result for each of its tool calls in order, and what is injected |
| `AgentTurns.EachTurnEnds` | packages/agent/src/agent-loop.ts:194-228 | each turn ends with an event holding its response and exactly the results just delivered, and only the end of the run can follow |
| `AgentTurns.ErrorIsShown` | packages/agent/src/agent.ts:524-528 | after its last turn a run leaves the error of that response in the agent |
| `AgentPrompts.RunPromptMessages` | packages/agent/src/agent.ts:374-400 | a run takes the agent from a snapshot of its transcript to the reduction of the run's events, and then to rest |
| `AgentPrompts.FinishRun` | packages/agent/src/agent.ts:480-487 | nothing is streaming, pending or active afterwards |
| `AgentPrompts.Prompt` | packages/agent/src/agent.ts:315-324 | a prompt runs unless a run is active, in which case nothing changes |
| `AgentPrompts.Continue` | packages/agent/src/agent.ts:326-353 | which of its three paths `continue` takes, what it drains, and its three errors, which change nothing |
| `AgentPrompts.AfterARun` | packages/agent/src/agent.ts:438-487 | after a run the transcript is the old one and the new messages, with nothing streaming or pending |
| `AgentPrompts.EarlierErrorIsCleared` | packages/agent/src/agent.ts:438-460 | a run clears an earlier error |
| `AgentPrompts.ContinueSendsFirst` | packages/agent/src/agent.ts:326-353 | the first request of `continue` in each of its cases, by queue, mode and initial poll, or its error |
| `AgentPrompts.ContinueConservesQueues` | packages/agent/src/agent.ts:326-353 | messages that `continue` drains as prompts are delivered in queue order as well |
| `AgentPrompts.ContinueAfterFailure` | packages/agent-host/src/agent-session-impl.ts:2498-2529 | with the failed response dropped, `continue` takes its continuation path and reports no error |
| `RetryMachine.StepKeeps` | packages/agent-host/src/agent-session-impl.ts:481-623 | every step of events, handlers, timers and aborts keeps the retry machine's invariant |
| `RetryMachine.StepAttends` | packages/agent-host/src/agent-session-impl.ts:2524-2541 | a pending promise loses its last attendant exactly by a timer that fires alone on an ended, unfinished run, and gets one back exactly by a new run or an abort |
| `RetryMachine.RetriesAreBoundedAndAttended` | packages/agent-host/src/agent-session-impl.ts:2458-2541 | in every history: attempts within bounds, a streak of k retries waits base * (2^k - 1), and a pending promise has a run, a queued end, a backoff or a timer if and only if no lost timer has left it alone with its run finished |
| `RetryMachine.TimerAlwaysContinues` | packages/agent-host/src/agent-session-impl.ts:2498-2529 | in every history: when a caller waits and nothing else is on its way, a timer is there exactly if none was lost, and its `continue` starts a run |
| `RetryMachine.LostTimerOrphans` | packages/agent-host/src/agent-session-impl.ts:2524-2529 | in every state a lost timer orphans the promise once the ended run has finished |
| `RetryMachine.SlowListenerOrphansThePromise` | packages/agent-host/src/agent-session-impl.ts:2524-2529 | a timer can be lost: a run that fails at once and a listener slower than the backoff |
| `RetryMachine.RetrySession.FindLastAssistantInMessages` | packages/agent-host/src/agent-session-impl.ts:518-526 | the loop finds the last assistant message |
| `RetryMachine.RetrySession.HandleMessageEnd` | packages/agent-host/src/agent-session-impl.ts:481-496 | an ended message is queued for processing |
| `RetryMachine.RetrySession.HandleAgentEnd` | packages/agent-host/src/agent-session-impl.ts:481-516 | the promise exists before the end of the run is queued, if the run failed in a way that is retried |
| `RetryMachine.RetrySession.ProcessAgentEvent` | packages/agent-host/src/agent-session-impl.ts:528-615 | processing an event tracks responses, puts the counter back to zero on success, and retries or resolves at the end of a run |
| `RetryMachine.RetrySession.HandleRetryableError` | packages/agent-host/src/agent-session-impl.ts:2458-2507 | one more attempt with its backoff and its edit of the transcript, or the end of the streak |
| `RetryMachine.RetrySession.EndSleep` | packages/agent-host/src/agent-session-impl.ts:2505-2532 | a finished backoff schedules `continue`, an aborted one gives up and resolves |
| `RetryMachine.RetrySession.AbortRetry` | packages/agent-host/src/agent-session-impl.ts:2537-2541 | an abort resolves the promise and wakes the backoff |
| `RetryMachine.RetrySession.ContinueFromTimer` | packages/agent-host/src/agent-session-impl.ts:2524-2529 | the timer starts a run unless one is active or the transcript cannot be continued |
| `RetryStreaks.EventsInOrder` | packages/agent-host/src/agent-session-impl.ts:481-496 | the queue holds exactly the emitted events not processed yet, in order |
| `RetryStreaks.CountsTheStreak` | packages/agent-host/src/agent-session-impl.ts:575-615 | in every history, counting from the actions: the counter is the number of backoffs begun since the last processed success, give-up or cancelled backoff, and the time waited is base * (2^that - 1) |
| `RetryStreaks.NextBackoff` | packages/agent-host/src/agent-session-impl.ts:2458-2507 | in every history a backoff begins exactly when a run's end is processed whose response is an error worth a retry and the streak is below its limit; it lasts base * 2^streak and drops the failed response; a success puts the counter to zero, so that the next one lasts the base delay |
| `RetryStreaks.PromiseComesFirst` | packages/agent-host/src/agent-session-impl.ts:498-516 | the promise is there as soon as the end of a run is emitted, exactly if its last response is worth a retry or it was there before |
| `RetryStreaks.OneTimerABackoff` | packages/agent-host/src/agent-session-impl.ts:2524-2529 | each backoff slept through sets one timer and nothing else does |
| `RetryStreaks.AbortGivesUp` | packages/agent-host/src/agent-session-impl.ts:2505-2541 | an abort in a backoff resolves the promise at once; the retry can then only be given up, with the counter at zero and no timer |
| `RetriedRuns.RunMessagesArePossible` | packages/agent/src/agent-loop.ts:155-246 | whatever handlers and timers do meanwhile, each message of a run of the agent loop can be emitted in its turn, and its end once it is over |
| `RetriedRuns.RunIsAHistory` | packages/agent/src/agent-loop.ts:155-246 | the start, messages and end of any run of the agent loop are a possible history of the retry machine |
| `RetriedRuns.TimerIsContinue` | packages/agent-host/src/agent-session-impl.ts:2524-2529 | the timer of the machine starts a run exactly if the agent's `continue` does, whatever its queues hold |
| `SettingsManager.WriteIsSelective` | packages/agent-host/src/settings-manager.ts:493-522 | a write brings what it names to the file and leaves every other field and key as it is there |
| `SettingsManager.ChangesAreMarked` | packages/agent-host/src/settings-manager.ts:437-445 | what differs in memory is marked |
| `SettingsManager.LastSetterWins` | packages/agent-host/src/settings-manager.ts:572-1066 | after any setters each path they set has the value given to it last, whatever it had before |
| `SettingsManager.OtherPathsStay` | packages/agent-host/src/settings-manager.ts:572-1066 | and every other path keeps its value, marked or not |
| `SettingsManager.SavedValuesReachTheFile` | packages/agent-host/src/settings-manager.ts:474-554 | once the queue has drained with no other writer, the file has for every path just set the value given to it last; after a failed load nothing is queued |
| `SettingsManager.MarksAreSetSince` | packages/agent-host/src/settings-manager.ts:437-483 | in every history the marks, and so the next write, name exactly the paths set since the last write finished or the file was read |
| `SettingsManager.StepKeepsUpToDate` | packages/agent-host/src/settings-manager.ts:474-522 | per path: the last queued write naming it brings the value in memory, and without one the file has it unless others changed it since |
| `SettingsManager.NoLostUpdate` | packages/agent-host/src/settings-manager.ts:437-554 | in every history, once the queue is empty the file has the value in memory unless another process changed it after the last write naming it, a reload overtook that write, or the change was not saved after a failed load; that writes clear later marks does no harm |
| `SettingsManager.QueueBrings` | packages/agent-host/src/settings-manager.ts:474-522 | once all queued writes have run, the file holds for each path what the last of them naming it brings, and else what it held |
| `SettingsManager.ReloadRaces` | packages/agent-host/src/settings-manager.ts:403-429 | after a reload, once the writes queued then have reached the file, memory and file agree on a path exactly if none of them brought it another value |
| `SettingsManager.OvertakenSetter` | packages/agent-host/src/settings-manager.ts:403-429 | a setter, a reload before its write, and the write: the file ends with the new value, memory with the old one |
| `SettingsManager.FileHoldsLastPut` | packages/agent-host/src/settings-manager.ts:474-522 | in every history the file holds for every path what the last write naming it, or the last other process to write the file, put there |
| `SettingsManager.OthersKeepTheirValues` | packages/agent-host/src/settings-manager.ts:493-522 | a field or key that is never set keeps exactly what other processes last put there |
| `SettingsManager.SettingsManager.MarkModified` | packages/agent-host/src/settings-manager.ts:437-445 | a mark on a field, and on a key if one is given |
| `SettingsManager.SettingsManager.Set` | packages/agent-host/src/settings-manager.ts:572-1066 | a setter gives its path the new value, marks the change and queues a write with all current marks, unless the file could not be read |
| `SettingsManager.SettingsManager.PersistScopedSettings` | packages/agent-host/src/settings-manager.ts:493-522 | the loops write the selective merge |
| `SettingsManager.SettingsManager.RunNextWrite` | packages/agent-host/src/settings-manager.ts:474-483 | a finished write clears all marks |
| `SettingsManager.SettingsManager.Flush` | packages/agent-host/src/settings-manager.ts:556-558 | the file becomes what the queued writes make of it, one after the other |
| `SettingsManager.SettingsManager.LoadAgain` | packages/agent-host/src/settings-manager.ts:405-417 | memory becomes what the file holds, or stays with saving off if it cannot be read; no marks are left |
| `SettingsManager.SettingsManager.Reload` | packages/agent-host/src/settings-manager.ts:403-429 | the queued writes reach the file and memory becomes what they left there, unless it cannot be read |
| `SettingsManager.DeepMergeSettings` | packages/agent-host/src/settings-manager.ts:116-143 | the loop gives each field its effective value |
| `SettingsManager.OverridesWin` | packages/agent-host/src/settings-manager.ts:116-143 | a plain override hides the field, and of two objects each overriding key wins over the same key below |
| `SettingsManager.MergeAssociates` | packages/agent-host/src/settings-manager.ts:116-143 | merging three scopes does not depend on the order exactly if no plain value hides an object's keys from another object |
| `AuthStorage.ProvidersAreIndependent` | packages/agent-host/src/auth-storage.ts:269-311 | in any interleaving a provider's credential depends on its own operations only |
| `AuthStorage.LastWriteWins` | packages/agent-host/src/auth-storage.ts:269-311 | the stored credential is that of the last locked operation on the provider that wrote one |
| `AuthStorage.RefreshWrites` | packages/agent-host/src/auth-storage.ts:400-444 | a refresh writes exactly if it finds an expired token in the file and gets new credentials |
| `AuthStorage.RefreshedOnlyWhenExpired` | packages/agent-host/src/auth-storage.ts:400-444 | with no other write between, a second refresh happens exactly if the first one's token had expired when it took the lock; until then that token stays |
| `AuthStorage.OneRefreshForAll` | packages/agent-host/src/auth-storage.ts:400-444 | while a refreshed token lasts, no other instance refreshes, however many try |
| `AuthStorage.AuthStorage.Reload` | packages/agent-host/src/auth-storage.ts:254-267 | memory becomes the file's content and the load error is gone |
| `AuthStorage.AuthStorage.PersistProviderChange` | packages/agent-host/src/auth-storage.ts:269-288 | one locked change of one provider in the file's current content; none after a load error |
| `AuthStorage.AuthStorage.Set` | packages/agent-host/src/auth-storage.ts:300-303 | memory and file get the credential |
| `AuthStorage.AuthStorage.Remove` | packages/agent-host/src/auth-storage.ts:308-311 | memory and file lose the credential |
| `AuthStorage.AuthStorage.RefreshOAuthTokenWithLock` | packages/agent-host/src/auth-storage.ts:400-444 | nothing for an unknown provider, else one locked operation that checks the stored token again and leaves memory equal to the file |
| `AuthStorage.AuthStorage.GetApiKey` | packages/agent-host/src/auth-storage.ts:455-513 | the priority of keys; a token is only given out unexpired at its check or freshly refreshed |
| `AuthStorage.KeyPriority` | packages/agent-host/src/auth-storage.ts:455-513 | which key is given out in each case of cached and stored credentials, clock and endpoint; a token only before its time, the environment before the fallback |
| `Artifacts.ResolveArtifactLineage` | packages/artifact-core/src/index.ts:110-130 | for any graph, exactly the existing artifacts reachable through at least one lineage edge, each once |
| `Artifacts.Resolver.Visit` | packages/artifact-core/src/index.ts:116-125 | a visit adds reachable artifacts only and closes what it adds under lineage, with cycles and missing ids |
| `Artifacts.ClosedHoldsPaths` | packages/artifact-core/src/index.ts:110-130 | what is closed under lineage holds everything reachable from it |
| `Artifacts.StoresAgree` | packages/artifact-core/src/index.ts:228-376 | given the same requests both stores list the same artifacts exactly if no id is drawn twice |
| `Artifacts.ArtifactsRecord` | packages/artifact-core/src/index.ts:233-267 | after any requests an artifact is there exactly if it was created, with the fields of its creation, a version that counts its updates, and content, time and metadata as given last |
| `Artifacts.FolderArtifactsRecord` | packages/artifact-core/src/index.ts:319-358 | the same in a folder as long as no id is drawn twice |
| `Artifacts.ListedAsCreated` | packages/artifact-core/src/index.ts:228-376 | artifacts are listed in the order of their creation |
| `Artifacts.MemoryArtifactStore.Create` | packages/artifact-core/src/index.ts:233-251 | a new artifact has its first version and joins the list |
| `Artifacts.MemoryArtifactStore.Update` | packages/artifact-core/src/index.ts:253-267 | an update counts the version, keeps the place in the list, and fails for an unknown id |
| `Artifacts.MemoryArtifactStore.Get` | packages/artifact-core/src/index.ts:269-271 | the artifact with this id, if there is one |
| `Artifacts.FileSystemArtifactStore.constructor` | packages/artifact-core/src/index.ts:297-313 | opening a folder finds the list that was saved last |
| `Artifacts.FileSystemArtifactStore.Create` | packages/artifact-core/src/index.ts:319-339 | list, saved list and content file stay in step |
| `Artifacts.FileSystemArtifactStore.Update` | packages/artifact-core/src/index.ts:341-358 | list, saved list and content file stay in step, and an unknown id changes nothing |
| `Artifacts.FileSystemArtifactStore.Get` | packages/artifact-core/src/index.ts:360-362 | the first artifact with this id, if there is one |
| `WorkerPool.StepKeeps` | packages/agent-host/src/package-manager-impl.ts:1542-1551 | claims and completions in any order keep every claimed index either in flight with one worker or stored |
| `WorkerPool.StepProgresses` | packages/agent-host/src/package-manager-impl.ts:1542-1551 | every move of any worker leaves exactly one move less |
| `WorkerPool.EveryTaskRunsOnce` | packages/agent-host/src/package-manager-impl.ts:1533-1555 | each index is claimed once; at every point at most limit tasks, or one for a limit below one, and never more than there are tasks, are under way; with 1, limit or n workers by cases, all results are in place after exactly 2n moves and one a worker |
| `WorkerPool.Workers.Move` | packages/agent-host/src/package-manager-impl.ts:1542-1551 | a worker claims the next index or stores the value of its task |
| `WorkerPool.RunWithConcurrency` | packages/agent-host/src/package-manager-impl.ts:1533-1555 | for every interleaving the results are the tasks' values in task order |
| `BashOutput.KeptIsSuffix` | packages/agent-host/src/bash-executor.ts:67-90 | the kept chunks are always the end of the full text |
| `BashOutput.FileWhenLarge` | packages/agent-host/src/bash-executor.ts:71-73 | while a command writes, there is a file exactly if its bytes call for one |
| `BashOutput.WholeStep` | packages/agent-host/src/bash-executor.ts:67-90 | one piece loses text exactly if it overfills the buffer, after other text, before the bytes call for a file |
| `BashOutput.NothingIsLost` | packages/agent-host/src/bash-executor.ts:53-90 | the whole text is in the file, or in the buffer without one, exactly if no piece does that |
| `BashOutput.ResultHasFullText` | packages/agent-host/src/bash-executor.ts:92-125 | with text no longer than its bytes: without a file the result is the full text, and a file holds the full text |
| `BashOutput.OutputCollector.EnsureTempFile` | packages/agent-host/src/bash-executor.ts:53-63 | a new file starts with the chunks that are kept |
| `BashOutput.OutputCollector.OnData` | packages/agent-host/src/bash-executor.ts:67-90 | one piece: sizes, file, buffer and the shifting loop |
| `BashOutput.OutputCollector.Conclude` | packages/agent-host/src/bash-executor.ts:92-109 | the result, with a file if it is cut for display, and no exit code if cancelled |
| `BashOutput.ExecuteBash` | packages/agent-host/src/bash-executor.ts:39-130 | a whole command: exit code unless cancelled, the cut text or the end of what was written, a file exactly if cut or above 51200 bytes, and the full text in one of them; any other failure goes to the caller |
| `ProxyStream.SplitIsExact` | packages/agent/src/proxy.ts:192-193 | lines and rest make up the text, split at every newline |
| `ProxyStream.SplitConcat` | packages/agent/src/proxy.ts:191-193 | splitting chunk by chunk with the rest carried over is splitting the whole text |
| `ProxyStream.BlocksFit` | packages/agent/src/proxy.ts:238-346 | however blocks interleave, each one is made of its own events since its last start |
| `ProxyStream.TextIsItsDeltas` | packages/agent/src/proxy.ts:246-308 | a text or thinking block is the concatenation of its deltas since its start |
| `ProxyStream.ArgumentsComeFromDeltas` | packages/agent/src/proxy.ts:310-346 | a tool call's arguments are read from its deltas exactly if none came after its end, or those before the last such one read "undefined" |
| `ProxyStream.DeltaAfterEnd` | packages/agent/src/proxy.ts:310-346 | start, delta, end and delta of a tool call: its arguments are read from "undefined" and the second delta, not from the two |
| `ProxyStream.ReaderIsItsEvents` | packages/agent/src/proxy.ts:195-206 | the message is always what the accepted events make of an empty one |
| `ProxyHistory.StopReasonIsLast` | packages/agent/src/proxy.ts:336-346 | stop reason and error are those of the last events that set them |
| `ProxyHistory.SignatureIsLast` | packages/agent/src/proxy.ts:263-308 | a text or thinking block has the signature of its last end since its start |
| `ProxyHistory.ToolCallIsItsStart` | packages/agent/src/proxy.ts:310-318 | a tool call has the id and name of its last start |
| `ProxyHistory.EventsFit` | packages/agent/src/proxy.ts:238-346 | events make a message exactly if every delta, and every end but a tool call's, finds a block of its kind |
| `ProxyHistory.LineHasData` | packages/agent/src/proxy.ts:197-199 | a line holds data exactly if it starts with the prefix and more than space follows |
| `ProxyHistory.TrimIsInner` | packages/agent/src/proxy.ts:198 | trimming keeps the text from its first to its last character that is not space |
| `ProxyHistory.AllLinesAreRead` | packages/agent/src/proxy.ts:195-206 | reading fails exactly if a line cannot be read or the events do not fit, and else the events are those of all lines in order |
| `ProxyStream.ProxyReader.SplitLines` | packages/agent/src/proxy.ts:192-193 | the lines of a text and what follows the last newline |
| `ProxyStream.ProxyReader.TakeLine` | packages/agent/src/proxy.ts:196-205 | a line without data is skipped, one that cannot be read or does not fit fails |
| `ProxyStream.ProxyReader.TakeChunk` | packages/agent/src/proxy.ts:191-206 | a chunk completes lines and leaves its rest in the buffer |
| `ProxyStream.ReadStream` | packages/agent/src/proxy.ts:183-207 | decoded events, message and failure depend on the concatenated text only; an unterminated last line is dropped and nothing is read after a failure |

## Left out

- Entry point: JSON text, UTF-8 decoding, ANSI stripping and path handling; files are values and lossless.
- SessionManager.SessionManager.constructor: does not migrate; an opened file is taken to be of the current version, with distinct ids and parents before children.
- SessionManager.SessionManager.SetSessionFile: does not migrate; an opened file is taken to be of the current version, since old versions lack the ids that everything else is about.
- SessionManager.SessionManager.Append: the append methods are one method with the entry's body as a parameter, since they differ only in the body.
- SessionManager.SessionManager.CreateBranchedSession: the order in which the label index lists its keys is a parameter; the ids of the new labels are fresh to the whole path, where the source only avoids those of the new log.
- SessionManager.SessionManager.NewSession: the label times that the source leaves behind are allowed for, since only times of labelled entries are compared.
- SessionTree.GetTree: nodes are positions in the log and the tree is a value, so sharing of node objects is not captured.
- Other session features: listing, forking from another project, session names, continuing the most recent session.
- Agent: listeners and hooks that throw, `handleRunFailure`, clearing of queues, reset and abort signals.
- AgentRuns.EveryRequestCanBeSent: transformations of the context before a request are not modelled; the request is the loop's context.
- ToolBatch.RunSchedule: a tool that reports progress after its execution has ended is not modelled, because such a report can come at any later time, after the run as well.
- ToolBatch.ExecuteParallel: a tool that reports progress after its execution has ended is not modelled, see above.
- ToolBatch.ExecuteToolCalls: a tool that reports progress after its execution has ended is not modelled, see above.
- ToolBatch.ScheduleFacts: a tool that reports progress after its execution has ended is not modelled, see above.
- ToolBatch.ParallelFacts: a tool that reports progress after its execution has ended is not modelled, see above.
- RetryMachine.StepKeeps: compaction, overflow recovery and session switches, which replace the transcript, are not part of the machine; the tests on error messages are parameters.
- RetryMachine.RetrySession.ProcessAgentEvent: persistence, the extension and listener events and the compaction check at the end are not part of the step.
- SettingsManager.NoLostUpdate: one scope; the other scope has marks and a file of its own, and its writes do not touch these. Failing writes are not modelled.
- SettingsManager.SettingsManager.Set: getters, clamping of single values and the migration of old setting names are left out; text in place of an object counts as no object.
- AuthStorage.AuthStorage.GetApiKey: the key of a stored credential is its text; resolving a command or variable in it is left out. Logging in is a set.
- Artifacts: references, manifests, media types and the ids of manifests.
- BashOutput.ExecuteBash: cutting the output for display is a parameter, and so are the ways the command ends.
- ProxyStream.ReadStream: requests, abort signals and the events sent on to the caller, and what a failure writes into the message; the reading of partial JSON is not modelled, only the text it is given.
- WorkerPool.RunWithConcurrency: tasks that fail.
- Package manager: patterns, overrides, deduplication and precedence of resources, which are finite or single-function facts.
