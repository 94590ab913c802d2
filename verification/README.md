# Verified model of the workspace application's state machines

This Dafny project models the parts of the application where ordering,
interleaving and tree or text algorithms matter, and proves what they keep.
Check everything with `dafny verify dfyconfig.toml`.

| module | what it models |
|---|---|
| `ChatQueue`, `ChatQueueWorker` | the persistent per-session chat queue and the single worker that drains it, parked on a one-permit notification |
| `Framing`, `AgentClient` | the broker link: the line framer, and the RPC multiplexer with concurrent callers and out-of-order answers |
| `Engine`, `EventPump` | the broker's reader threads feeding log and event channel, and the two-task pump that coalesces output for the UI |
| `Layout`, `Tree`, `Workspace` | the tiling tree in its backend and frontend versions, stale-leaf pruning, and the agent mirror it relies on |
| `StripControl`, `PathMention` | the escape-sequence scanner and the `@[label]` mention helpers |
| `ChatSessions` | lazily repaired session pointers over two scopes |
| `WorkspaceSwitch`, `SavedLayout` | overlapping workspace reloads under a generation counter, interleaved with the backend's writes, and what an agent's exit does to the saved layout |
| `ChunkBuffer` | the chat-chunk buffer |
| `Prelude`, `RustStr` | shared types; the string functions of Rust's standard library |

The operations of each component are methods of a class (or of the module, where
the original is a free function), proved equal to functions of the old state or
of the input. Those functions are the steps of a state machine `Next`; a run is a
sequence of events in any order, an event that is not possible in a state changes
nothing, and so a theorem about `Run` speaks about every interleaving.

## Where the code falls short of what it promises

Each item has the exact condition, and a run or input that meets it.

- `ChatQueueWorker.SwitchStrands`, `ChatQueueWorker.PokeServes`: a poke serves the
  session current when it is served, and switching the session does not poke
  (`src-tauri/src/commands.rs:508-523`); switching to a session with a backlog leaves
  it stranded until the next poke (`ChatQueueWorker.StrandedBySwitch`).
- `AgentClient.ReturnsIffRegistered`, `AgentClient.LateCallHangs`: a request
  registered after the read loop has cleared the map, and accepted by a write loop
  that is still there, waits forever.
- `Framing.FragmentShows`, `Framing.CutMidFrame`: the documentation says end of file is reported only at a
  frame boundary; a connection that dies inside a frame hands the fragment out as
  a frame and reports a clean end afterwards.
- `Engine.ListedAfterExit`, `Engine.UnlistedWhileAlive`: the reader thread removes the
  runtime by id and may run before the insert, so a finished child can stay listed and
  a living one can be taken out (`Engine.ListedAfterExitHappens`,
  `Engine.UnlistedWhileAliveHappens`).
- `EventPump.ExitWhileFlushing`, `EventPump.OrderBreaksIff`: an exit handled while
  the flush task holds a batch of that agent overtakes the batch
  (`EventPump.ExitReorders`).
- `SavedLayout.ExitKeepsIff`: an agent's exit sends what the canvas shows to be saved,
  without waiting. Panes of the saved layout are lost when the canvas is cleared for a
  switch or shows another write (`SavedLayout.SavedLayoutLost`,
  `SavedLayout.OvertakenAnswerLoses`, `SavedLayout.EventUnderWayLoses`), and even from a
  canvas in sync when the backend saves before the sent layout lands
  (`SavedLayout.InSyncExitLoses`).
- `ChatSessions.SetCurrentTakesEffect`: choosing a session of a workspace that is
  not the current one switches the scope but not to that session
  (`ChatSessions.SetCurrentMisses`).
- `PathMention.BackspaceTakesToken`: a chip whose label holds an `@` or more than
  253 characters is not removed as a whole (`PathMention.AtSignCutsToken`).
- `Tree.CloseUndoesInsert`, `Tree.CloseUndoesSplit`, `Layout.RemoveUndoesInsert`:
  undoing an insertion gives the old tree back exactly on the trees named there
  (`Tree.EmptyChildIsLost`, `Layout.EmptyChildCollapses`).

## Model

| member | source | states |
|---|---|---|
| `ChatQueueWorker.WholeRunFifo` | src-tauri/src/chat_queue.rs:108-286 | in every run with crashes, recoveries, cancels and session switches, a session's finished messages followed by its rows by position are the accepted messages in order minus the cancelled ones: nothing lost, duplicated or overtaken |
| `ChatQueueWorker.WholeRunTable` | src-tauri/src/chat_queue_worker.rs:130-165 | in every run a session's positions increase in send order, processing precedes queued, no session exceeds 100 rows, and at most one row of the table is processing |
| `ChatQueueWorker.NoLostWakeUp` | src-tauri/src/chat_queue_worker.rs:44-47 | in every run, a worker parked after a drain not cut short by a failed turn or claim has no stored permit, and each row of the session it drained belongs to a sender between its enqueue and its poke |
| `ChatQueueWorker.EveryPokeIsServed` | src-tauri/src/chat_queue_worker.rs:44-165 | in every run, under either error policy and with failed turns and claims: a parked worker has claimed, or tried to, after the last poke, whatever it was doing when that poke came |
| `ChatQueueWorker.OnePokeOneDrain` | src-tauri/src/chat_queue_worker.rs:44-115 | in every run there are never more drains than pokes, a stored permit and a wake-up under way included: each poke is used up once |
| `ChatQueueWorker.ParkedMeansDone` | src-tauri/src/commands.rs:307-310 | with one session and all senders past their poke, such a parked worker means an empty queue |
| `ChatQueueWorker.SwitchStrands` | src-tauri/src/chat_queue_worker.rs:130-136 | in every run that ends parked after an emptied drain with all senders past their poke, switching to a session strands a message if and only if that session has a backlog; the session drained last never has one |
| `ChatQueueWorker.OnlyAPokeWakes` | src-tauri/src/chat_queue_worker.rs:103-115 | a parked worker starts no turn before the next poke or restart |
| `ChatQueueWorker.PokeServes` | src-tauri/src/chat_queue_worker.rs:130-165 | from any parked state of any run, a poke, the session then current and an undisturbed drain: a message leaves the table only if it is of that session, and all of those do unless a failed turn stops the drain |
| `ChatQueueWorker.StrandedBySwitch` | src-tauri/src/chat_queue_worker.rs:130-136 | a run that reaches a stranded message, by switching between a sender's enqueue and the serving of its poke, and back |
| `ChatQueueWorker.TurnsPerMessage` | src-tauri/src/chat_queue_worker.rs:145-163 | in every run a message's turns are exactly those a crash cut off, the finished one and the one in progress: at most one more than the crashes during them |
| `ChatQueueWorker.TurnsAreAsSent` | src-tauri/src/chat_queue_worker.rs:133-147 | in every run the item of a turn has the session, trimmed text, attachments and time of the message sent under its id |
| `ChatQueueWorker.CrashRecovers` | src-tauri/src/chat_queue_worker.rs:90-102 | after a crash at any point of a run the next start finds every row queued, none lost or reordered, and begins to claim |
| `ChatQueueWorker.OneTurn` | src-tauri/src/chat_queue_worker.rs:131-151 | claim plus finish removes exactly the session's oldest row and leaves other sessions alone |
| `ChatQueueWorker.Worker.WakeUp` | src-tauri/src/chat_queue_worker.rs:45-47 | wakes a parked worker, and in every other phase stores one permit |
| `ChatQueueWorker.Worker.Spawn` | src-tauri/src/chat_queue_worker.rs:90-102 | start-up recovers rows in flight and begins to claim |
| `ChatQueueWorker.Worker.ClaimStep` | src-tauri/src/chat_queue_worker.rs:133-141 | takes the head of the current session into a turn, or ends the drain |
| `ChatQueueWorker.Worker.ClaimFails` | src-tauri/src/chat_queue_worker.rs:104-115 | a failing claim ends the drain under either policy and touches no row |
| `ChatQueueWorker.Worker.FinishTurn` | src-tauri/src/chat_queue_worker.rs:145-163 | removes the row of the turn; a failure ends the drain unless the policy says continue |
| `ChatQueueWorker.Worker.ParkStep` | src-tauri/src/chat_queue_worker.rs:103-115 | consumes a stored permit, else parks |
| `ChatQueueWorker.Worker.Wake` | src-tauri/src/chat_queue_worker.rs:103-114 | a notified worker claims next, and a permit stored meanwhile stays |
| `ChatQueueWorker.Worker.SetErrorPolicy` | src-tauri/src/chat_queue.rs:332-338 | a failed turn stops the drain only if the setting is `false`, in any case |
| `ChatQueueWorker.Worker.DrainRound` | src-tauri/src/chat_queue_worker.rs:131-164 | one round of the loop shortens the session's backlog by its head, leaves everything else alone and says when the loop goes on |
| `ChatQueueWorker.RoundServes` | src-tauri/src/chat_queue_worker.rs:131-164 | a round removes the oldest message of the session and nothing else, and the next follows unless there was none or its failure stops the drain |
| `ChatQueueWorker.Worker.DrainOnce` | src-tauri/src/chat_queue_worker.rs:130-165 | undisturbed, works through the whole backlog in order, or stops right after the first failed turn under the stop policy; each message has its own outcome |
| `ChatQueue.AcceptedIff` | src-tauri/src/chat_queue.rs:136-206 | a message is accepted if and only if it is not blank, differs from the last unfinished one and finds fewer than 100; it then extends the backlog at its end as it was sent, trimmed, with the next number or 1 |
| `ChatQueue.AppendValid` | src-tauri/src/chat_queue.rs:157-206 | an accepted message keeps order, distinct ids and the bound |
| `ChatQueue.MaxIsAbove` | src-tauri/src/chat_queue.rs:172-178 | the number handed out lies above every row of the session although numbers are reused |
| `ChatQueue.HeadIsFirstQueued` | src-tauri/src/chat_queue.rs:218-241 | the claimed row is a queued one with the lowest position; none is found only if none is queued |
| `ChatQueue.ClaimMarksHead` | src-tauri/src/chat_queue.rs:249-255 | claiming changes one row's status, and only processing rows of its session precede it |
| `ChatQueue.ClaimValid` | src-tauri/src/chat_queue.rs:215-256 | claiming keeps the table invariant and everything but statuses |
| `ChatQueue.DeleteValid` | src-tauri/src/chat_queue.rs:261-286 | deletions keep the table invariant |
| `ChatQueue.RecoverValid` | src-tauri/src/chat_queue.rs:108-115 | recovery keeps the table invariant and everything but statuses |
| `ChatQueue.ListInSendOrder` | src-tauri/src/chat_queue.rs:289-317 | sorting by position is send order, with processing rows first |
| `ChatQueue.Queue.Enqueue` | src-tauri/src/chat_queue.rs:130-207 | appends exactly one queued row with the id, session, trimmed text, attachments and time given, or refuses for the stated reason and changes nothing |
| `RustStr.TrimCuts` | src-tauri/src/chat_queue.rs:136-139 | trimming cuts only whitespace, and all of it, at both ends |
| `ChatQueue.Queue.ClaimNext` | src-tauri/src/chat_queue.rs:215-256 | marks the head and returns it as processing, or nothing |
| `ChatQueue.Queue.Cancel` | src-tauri/src/chat_queue.rs:261-268 | takes out exactly the row with this id if it is still queued, says whether it did, and leaves a row in a turn and every other row in place |
| `ChatQueue.Queue.MarkDone` | src-tauri/src/chat_queue.rs:272-276 | no row with this id remains, in whatever status it was; every other row stays in place and the table invariant holds |
| `ChatQueue.Queue.MarkFailed` | src-tauri/src/chat_queue.rs:282-286 | no row with this id remains, in whatever status it was; every other row stays in place and the table invariant holds |
| `ChatQueue.Queue.RecoverInflight` | src-tauri/src/chat_queue.rs:108-115 | no row is processing afterwards, nothing but statuses changed, the table invariant holds, and the result is the number of rows changed |
| `ChatQueue.Queue.List` | src-tauri/src/chat_queue.rs:289-317 | exactly the rows of the session, by ascending position; in a sound table that is the order they were accepted in |
| `Framing.OneFrameRoundTrip` | src-tauri/src/agentd/framing.rs:50-110 | a line comes back unchanged if and only if it fits the limit to the byte, is neither blank nor a comment and does not end in a carriage return |
| `Framing.CrLfLine` | src-tauri/src/agentd/framing.rs:70-76 | a line ended by carriage return and newline is read without both, and only one carriage return comes off |
| `RustStr.Utf8RoundTrip` | src-tauri/src/agentd/framing.rs:62-62 | the lengths in bytes are those of UTF-8 (section 3 of RFC 3629), whose bytes read back |
| `Framing.RoundTrip` | src-tauri/src/agentd/framing.rs:50-110 | any list of such payloads, with blank and comment lines in between, reads back as exactly that list and then a clean end |
| `Framing.ReadPrefix` | src-tauri/src/agentd/framing.rs:50-83 | and whatever follows is read as if it stood alone |
| `Framing.CutMidFrame` | src-tauri/src/agentd/framing.rs:42-83 | a stream cut inside a frame yields the fragment as a frame and then a clean end |
| `Framing.FragmentShows` | src-tauri/src/agentd/framing.rs:42-83 | after any stream of complete lines that reads without error, an unterminated rest shows as one more frame if and only if it is neither blank nor a comment, and the end looks clean either way |
| `Framing.ReadFragment` | src-tauri/src/agentd/framing.rs:70-82 | a last line without a newline is a frame like any other |
| `Framing.ReadConsumes` | src-tauri/src/agentd/framing.rs:51-82 | a returned frame used up input and is never blank or a comment |
| `Framing.JsonSurvives` | src-tauri/src/agentd/framing.rs:85-110 | JSON objects within the limit meet the round-trip conditions |
| `Framing.Reader.ReadFrame` | src-tauri/src/agentd/framing.rs:50-83 | the loop returns what the stream function says, advances past it, and always progresses on a frame |
| `Framing.Writer.WriteFrame` | src-tauri/src/agentd/framing.rs:92-110 | writes payload and newline, or refuses a newline or an overlong payload and writes nothing |
| `AgentClient.Correlation` | src-tauri/src/agentd/client.rs:337-401 | for any number of callers and any order of answers from a broker that keeps to its protocol: ids are never shared, each outcome is the answer given to the caller's own id and operation, the broker's error for that id, or a disconnect, and never `UnexpectedShape` |
| `AgentClient.AnswerArrives` | src-tauri/src/agentd/client.rs:337-401 | in any run, once the response to a registered call's id has been received and whatever follows, the call's await ends in the payload answered or the broker's error |
| `AgentClient.AwaitDisconnectsIff` | src-tauri/src/agentd/client.rs:347-350 | an await ends in a disconnect if and only if its sender was dropped, which only the end of the read loop does |
| `AgentClient.EndDropsExactly` | src-tauri/src/agentd/client.rs:410-412 | the end of the read loop drops exactly the registered senders |
| `AgentClient.UnexpectedIffBroken` | src-tauri/src/agentd/client.rs:337-401 | in any run, with any broker: a caller about to take a response ends in `UnexpectedShape` if and only if receiving that response broke the protocol |
| `AgentClient.OutcomeIsFinal` | src-tauri/src/agentd/client.rs:337-351 | a caller has at most one outcome and its channel is filled at most once, whatever the broker does |
| `AgentClient.ResponseDisturbsNobody` | src-tauri/src/agentd/client.rs:394-400 | a response touches only the call with its id; an unknown id changes nothing |
| `AgentClient.DisconnectDrains` | src-tauri/src/agentd/client.rs:384-413 | after the final clear, whatever follows, every call registered before has its channel resolved and no entry in the map |
| `AgentClient.ReturnsIffRegistered` | src-tauri/src/agentd/client.rs:337-413 | in every run, a call awaiting its response at any time after the final clear can still return if and only if it was registered before the clear |
| `AgentClient.LateCallHangs` | src-tauri/src/agentd/client.rs:337-351 | every call begun after the read loop has ended fails at once if the write loop has ended too, and otherwise never returns |
| `AgentClient.Client.Allocate` | src-tauri/src/agentd/client.rs:338-338 | hands out the counter and advances it |
| `AgentClient.Client.Install` | src-tauri/src/agentd/client.rs:341-342 | registers the caller under its id |
| `AgentClient.Client.Transmit` | src-tauri/src/agentd/client.rs:343-346 | awaits, or takes the entry back and reports a disconnect when the write loop is gone |
| `AgentClient.Client.Return` | src-tauri/src/agentd/client.rs:347-350 | the caller takes the answer, the broker's error, a disconnect or an unexpected shape, by what its channel holds |
| `AgentClient.Client.Drop` | src-tauri/src/agentd/client.rs:333-336 | a dropped future leaves its entry behind |
| `AgentClient.Client.EndWriter` | src-tauri/src/agentd/client.rs:371-376 | after a failed write nothing more is sent |
| `AgentClient.Client.Dispatch` | src-tauri/src/agentd/client.rs:394-400 | delivers a response to the entry with its id and removes it |
| `AgentClient.Client.Clear` | src-tauri/src/agentd/client.rs:410-412 | drops every registered sender and empties the map |
| `Engine.StreamAndLogAgree` | src-tauri/src/agentd/engine.rs:320-369 | in every interleaving, for an agent id spawned once, its Stdout events followed by the chunk in flight are its log; Exit is sent at most once and after the last Stdout |
| `Engine.LogIsWhatWasRead` | src-tauri/src/agentd/engine.rs:320-333 | in every interleaving an agent's log is the concatenation, in order, of what its threads have read |
| `Engine.StreamAcrossSpawns` | src-tauri/src/agentd/engine.rs:320-369 | for an id used again, with one reader at a time: its Stdout events over all its children, followed by the chunk in flight, are its log |
| `Engine.OverlapLosesNothing` | src-tauri/src/agentd/engine.rs:320-369 | in every interleaving, overlapping readers of one id included: the bytes of its Stdout events and of all its chunks in flight are the bytes of its log, each as often |
| `Engine.OneExitPerSpawn` | src-tauri/src/agentd/engine.rs:355-369 | however often an id is used again, the Exits sent for it are exactly as many as its finished children while the engine is not shutting down, and never more |
| `Engine.ListedAfterExit` | src-tauri/src/agentd/engine.rs:320-372 | for any number of children under any ids, a finished child is listed as live if and only if it was removed before it was inserted and not killed, evicted or replaced since |
| `Engine.UnlistedWhileAlive` | src-tauri/src/agentd/engine.rs:355-372 | a child still being read is unlisted, once inserted, if and only if it was killed, another thread of its id removed its runtime by that id, or another spawn of the id replaced it |
| `Engine.CarefulSpawns` | src-tauri/src/agentd/engine.rs:245-372 | if an id is spawned again only after its last child has finished and been inserted, nothing evicts or replaces its entries, and a child still read is unlisted, once inserted, if and only if it was killed |
| `Engine.ListedAfterExitHappens` | src-tauri/src/agentd/engine.rs:320-372 | a run that leaves a finished child listed |
| `Engine.UnlistedWhileAliveHappens` | src-tauri/src/agentd/engine.rs:355-372 | a run in which a killed child's thread takes out the runtime of the next child under its id |
| `Engine.Supervisor.Spawn` | src-tauri/src/agentd/engine.rs:231-320 | refuses exactly a blank program or an unsafe id to reuse, and otherwise returns the id, having started a reader thread unless the id is hosted already |
| `Engine.Supervisor.Insert` | src-tauri/src/agentd/engine.rs:371-371 | the runtime is inserted after the thread was started |
| `Engine.Supervisor.Kill` | src-tauri/src/agentd/engine.rs:441-446 | drops the runtime, or reports that there is none |
| `Engine.Supervisor.ReadChunk` | src-tauri/src/agentd/engine.rs:328-333 | appends exactly the chunk, of up to 8192 bytes, to the agent's log and holds it for publishing |
| `Engine.Supervisor.Broadcast` | src-tauri/src/agentd/engine.rs:346-350 | publishes the same chunk as a later step |
| `Engine.Supervisor.NoticeEof` | src-tauri/src/agentd/engine.rs:328-353 | an empty or failing read ends the thread's reading |
| `Engine.Supervisor.BeginShutdown` | src-tauri/src/agentd/engine.rs:364-368 | no exit is announced once the engine shuts down |
| `Engine.Supervisor.Cleanup` | src-tauri/src/agentd/engine.rs:355-369 | removes the runtime by id, then announces the exit unless shutting down |
| `Engine.Supervisor.LogTail` | src-tauri/src/agentd/engine.rs:216-229 | the last min(max, size) bytes of the log |
| `EventPump.NothingLost` | src-tauri/src/agent.rs:651-766 | under every interleaving of pump and flush task, the bytes received of an agent are emitted or held, each exactly once |
| `EventPump.AllIsReceived` | src-tauri/src/agent.rs:701-766 | every event the pump takes counts as received, in order |
| `EventPump.ExitsReachUi` | src-tauri/src/agent.rs:736-766 | in every interleaving the UI is told of each exit received exactly once, but for the one being handled |
| `EventPump.OrderKeptBeforeExit` | src-tauri/src/agent.rs:651-715 | before an agent's first exit, emitted, drained and pending bytes are the received ones in order |
| `EventPump.OrderKept` | src-tauri/src/agent.rs:651-766 | an agent's bytes stay in order as long as no exit's tail is emitted ahead of a drained batch it does not commute with |
| `EventPump.OrderBreaksIff` | src-tauri/src/agent.rs:671-766 | and the next step after such a run breaks the order if and only if it is such an emission |
| `EventPump.ExitWithoutBatch` | src-tauri/src/agent.rs:736-766 | if the flush task holds no batch of the agent when its exit arrives, all bytes are out, in order, before the exit event, whatever happens in between |
| `EventPump.ExitWhileFlushing` | src-tauri/src/agent.rs:671-766 | in every interleaving, when the exit event is about to go out all bytes received are out if and only if the flush task then holds none of them |
| `EventPump.ExitReorders` | src-tauri/src/agent.rs:671-766 | a run in which two bytes swap places |
| `EventPump.UiShowsPrefixOfLog` | src-tauri/src/agent.rs:620-766 | engine and pump together: the UI shows a prefix of the log of an id whose children follow one another, and all of it once everything is delivered and flushed |
| `EventPump.StepMoves` | src-tauri/src/agent.rs:651-766 | what each step does to one agent's bytes |
| `EventPump.Coalescer.OnStdout` | src-tauri/src/agent.rs:703-715 | appends the chunk to the agent's pending bytes |
| `EventPump.Coalescer.OnExit` | src-tauri/src/agent.rs:736-766 | emits the pending tail, if any, and then exactly one exit event |
| `EventPump.Coalescer.DrainPending` | src-tauri/src/agent.rs:671-677 | moves all pending bytes into the batch |
| `EventPump.Coalescer.FlushOne` | src-tauri/src/agent.rs:678-693 | emits one agent's batch, if not empty |
| `EventPump.Coalescer.Flush` | src-tauri/src/agent.rs:665-694 | undisturbed, emits each agent's pending bytes in at most one event and holds nothing back |
| `Layout.GridIsBalanced` | src-tauri/src/layout.rs:49-100 | n insertions from the empty tree give splits with b ≤ a ≤ b + 1 leaves, directions alternating from vertical at the root, no empty node, and height h with n ≤ 2^h < 2n |
| `Layout.GridLeaves` | src-tauri/src/layout.rs:49-100 | and exactly the inserted ids as leaves |
| `Layout.BalancedHeight` | src-tauri/src/layout.rs:94-100 | any balanced tree is as flat as its leaf count allows |
| `Layout.InsertGrowsEvenly` | src-tauri/src/layout.rs:49-92 | from any tree, every old split stays, its imbalance does not exceed max(old, 1), and a leaf is split in equal halves, vertically at even depth and horizontally at odd |
| `Layout.InsertLeaves` | src-tauri/src/layout.rs:49-92 | one leaf is added, the others keep their order |
| `Layout.RemoveDropsFirst` | src-tauri/src/layout.rs:103-155 | drops exactly the first occurrence, reports true if and only if there was one, leaves the tree alone otherwise, keeps canonical trees canonical |
| `Layout.RemoveUndoesInsert` | src-tauri/src/layout.rs:49-155 | removing a freshly inserted id restores the tree if and only if the insertion did not fill an empty child |
| `Layout.RemoveUndoesInsertCanonical` | src-tauri/src/layout.rs:49-155 | always so on canonical trees |
| `Layout.EmptyChildCollapses` | src-tauri/src/layout.rs:49-155 | a tree with an empty child that is not restored |
| `Layout.CollectLeaves` | src-tauri/src/layout.rs:30-45 | pushes the leaves left to right |
| `Tree.CloseDropsAll` | frontend/src/layout/tree.ts:96-108 | drops every occurrence and always yields a canonical tree |
| `Tree.CloseAbsent` | frontend/src/layout/tree.ts:96-108 | closing an absent id is the identity if and only if the tree is canonical |
| `Tree.CloseUndoesInsert` | frontend/src/layout/tree.ts:70-108 | closing a freshly inserted id restores the tree if and only if it is canonical |
| `Tree.CloseUndoesSplit` | frontend/src/layout/tree.ts:37-108 | the same for splitting any leaf |
| `Tree.EmptyChildIsLost` | frontend/src/layout/tree.ts:37-108 | a tree with an empty child that neither pair restores |
| `Tree.SplitAddsAfterTarget` | frontend/src/layout/tree.ts:37-63 | the new pane follows its target and appears nowhere else |
| `Tree.SplitPairsWithTarget` | frontend/src/layout/tree.ts:37-63 | on any tree, target and new pane share one split of the wanted direction in equal halves, an empty node takes the new pane, and every other split is as before; an absent target changes nothing on canonical trees |
| `Tree.RemovalsAgree` | src-tauri/src/layout.rs:103-155 | on canonical trees the backend's and the frontend's removal build the same tree if and only if the id occurs at most once |
| `Tree.RepeatedRemovalIsClose` | frontend/src/layout/tree.ts:96-108 | the backend's removal repeated until it reports false leaves the leaves of one `closeLeaf` on any tree, and the same tree on canonical ones |
| `Tree.ReplaceRenames` | frontend/src/layout/tree.ts:132-146 | renames every occurrence in place |
| `Tree.ReplaceRoundTrip` | frontend/src/layout/tree.ts:132-146 | renaming there and back is the identity if and only if the new id was unused or is the old one |
| `Workspace.PruneIsExactFilter` | src-tauri/src/workspace.rs:208-232 | on every tree, duplicates and empty children included, pruning leaves exactly the live leaves in order; a second prune is a no-op; canonical stays canonical |
| `Workspace.PruneIsRestrict` | src-tauri/src/workspace.rs:217-226 | on canonical trees the loop of single removals builds the tree of a one-pass filter |
| `Workspace.Store.PruneStaleLayout` | src-tauri/src/workspace.rs:208-232 | the loop computes the pruned tree, stores and returns it, or reports a missing workspace |
| `Workspace.Store.UpdateLayout` | src-tauri/src/workspace.rs:240-251 | replaces one row's layout or reports that it is missing |
| `Workspace.Store.Sweep` | src-tauri/src/agent.rs:348-371 | rows the broker does not list are exited, the others untouched |
| `Workspace.Store.RestoreSession` | src-tauri/src/agent.rs:335-386 | commits the reconciled mirror if and only if every listed agent's workspace exists; otherwise nothing changes |
| `Workspace.SweepThenUpsertReconciles` | src-tauri/src/agent.rs:348-385 | the two statements together give the broker's agents as running with its fields, the first creation time kept, and everything else exited |
| `Workspace.PruneAfterRestore` | src-tauri/src/workspace.rs:210-216 | after a commit the running rows are exactly the broker's agents, and a leaf survives pruning if and only if the broker hosts its agent in that workspace |
| `StripControl.Strip` | frontend/src/lib/stripControl.ts:36-134 | the index-driven scan equals the left-to-right automaton |
| `StripControl.SkipEscape` | frontend/src/lib/stripControl.ts:41-126 | each escape branch leaves the index where the automaton is back on ground |
| `StripControl.SkipCsi` | frontend/src/lib/stripControl.ts:45-73 | the same for CSI, the malformed one included |
| `StripControl.SkipOsc` | frontend/src/lib/stripControl.ts:75-94 | the same for OSC, ended by BEL, ST or the end of text |
| `StripControl.SkipString` | frontend/src/lib/stripControl.ts:96-110 | the same for DCS, SOS, PM and APC |
| `StripControl.EmittedOfConcat` | frontend/src/lib/stripControl.ts:36-134 | stripping a concatenation is stripping the parts, the second from the mode the first ends in |
| `StripControl.CaretFix` | frontend/src/components/PathMentionTextarea.tsx:299-306 | the stripped text up to any caret is a prefix of the stripped text, so its length is the new caret |
| `StripControl.StrippedIsClean` | frontend/src/lib/stripControl.ts:127-134 | no ESC, DEL or C0 but TAB, LF, CR remains; exactly clean text is left alone; stripping is idempotent |
| `StripControl.StrippedIsSubsequence` | frontend/src/lib/stripControl.ts:36-134 | nothing is invented or reordered |
| `StripControl.ControlVanishes` | frontend/src/lib/stripControl.ts:20-36 | every CSI (ECMA-48 section 5.4), also out of order or broken off, every control string (section 5.6, or OSC ended by BEL), SS3 or escaped control character is removed whole |
| `StripControl.TypedTextSurvives` | frontend/src/lib/stripControl.ts:20-134 | however such sequences, escapes before other characters and lone control characters are mixed into typed text, and whatever sequence the text is cut off in, exactly the typed text remains |
| `StripControl.EveryTextParses` | frontend/src/lib/stripControl.ts:36-134 | every text is of that form, so the result is determined for all of them |
| `PathMention.UniqueLabel` | frontend/src/components/pathMentionHelpers.ts:106-112 | returns the label itself if free, else the first free numbered one, within existing + 1 probes |
| `PathMention.FirstFreeFound` | frontend/src/components/pathMentionHelpers.ts:109-111 | the search terminates by pigeonhole over injective decimal suffixes and skips no free label |
| `PathMention.DecimalInjective` | frontend/src/components/pathMentionHelpers.ts:110-111 | different numbers have different decimal suffixes |
| `PathMention.DecimalIsNumeral` | frontend/src/components/pathMentionHelpers.ts:110-111 | the suffix is the decimal numeral of the number |
| `PathMention.ComposerLabelsDistinct` | frontend/src/components/PathMentionTextarea.tsx:200-233 | however attaching, editing, deleting and sending are interleaved, all attachments of a message carry different labels and there are at most 16 |
| `PathMention.AttachingWorks` | frontend/src/components/PathMentionTextarea.tsx:219-227 | a suggestion is attached under a free label until a message has 16 |
| `PathMention.ExecIsLeftmost` | frontend/src/components/pathMentionHelpers.ts:13-13 | the token expression finds a token, and none starts further left |
| `PathMention.MatchAll` | frontend/src/components/pathMentionHelpers.ts:61-66 | the match loop collects the labels of all tokens |
| `PathMention.TokensAreAll` | frontend/src/components/pathMentionHelpers.ts:13-66 | the labels collected are those of tokens from left to right and apart, and no token is missed |
| `PathMention.ReconcileAttachments` | frontend/src/components/pathMentionHelpers.ts:57-73 | the loop computes the attachments of the text's tokens |
| `PathMention.AttachedPerLabel` | frontend/src/components/pathMentionHelpers.ts:68-71 | per label, the first pool entries with it are kept, as many as there are tokens |
| `PathMention.OneEntryPerLabel` | frontend/src/components/pathMentionHelpers.ts:52-72 | on any pool, at most one entry is kept for a label if and only if the text names it at most once or the pool has at most one entry with it |
| `PathMention.ComposerKeepsOne` | frontend/src/components/PathMentionTextarea.tsx:271-309 | so in the composer, as documented, a label's one entry is kept exactly if the text names it and used once however often it does |
| `PathMention.AttachedInTokenOrder` | frontend/src/components/pathMentionHelpers.ts:67-72 | no entry is repeated, all come from the pool, and they follow token order |
| `PathMention.ReconcileIdempotent` | frontend/src/components/pathMentionHelpers.ts:57-73 | reconciling what was kept keeps it all |
| `PathMention.TokenLeftOfCaret` | frontend/src/components/pathMentionHelpers.ts:79-93 | returns a selection if and only if the nearest `@` or line break within 256 characters opens an `@[` |
| `PathMention.BackspaceTakesToken` | frontend/src/components/pathMentionHelpers.ts:79-93 | right after a chip exactly that chip, and nothing else, is selected if and only if its label has no `@` and at most 253 characters |
| `PathMention.AtSignCutsToken` | frontend/src/components/pathMentionHelpers.ts:86-91 | a chip of which nothing is selected, and one of which only the second half is |
| `ChatSessions.EnsureIsSound` | src-tauri/src/chat_sessions.rs:308-326 | returns a live session of the resolved scope and points at it; fails if and only if the active workspace does not exist |
| `ChatSessions.TargetIff` | src-tauri/src/chat_sessions.rs:230-260 | the target is a workspace exactly when the settings name the workspace scope and a non-empty workspace |
| `ChatSessions.EnsureChooses` | src-tauri/src/chat_sessions.rs:305-326 | the session is the one pointed at, else a most recently updated one of the scope, else a new "Main", the last only when the scope is empty |
| `ChatSessions.LegacyPointerHonoured` | src-tauri/src/chat_sessions.rs:291-303 | with no global pointer set, the legacy pointer's session is returned, and none created, if and only if it exists and is global |
| `ChatSessions.EnsureIsIdempotent` | src-tauri/src/chat_sessions.rs:305-326 | a second call changes nothing and returns the same session |
| `ChatSessions.EnsureTouchesOnePointer` | src-tauri/src/chat_sessions.rs:293-326 | no other scope's pointer and no other setting changes, but for adopting the legacy pointer |
| `ChatSessions.AlwaysResolves` | src-tauri/src/chat_sessions.rs:246-326 | in every state reachable from any sound tables, a legacy pointer included, resolution succeeds with a session of its scope whenever the target exists |
| `ChatSessions.SwitchAwayAndBack` | src-tauri/src/chat_sessions.rs:246-370 | whatever happens to other scopes, coming back to a scope finds the same undeleted session |
| `ChatSessions.PointerStays` | src-tauri/src/chat_sessions.rs:265-363 | no single operation moves a scope's resolved pointer, unless it deletes the session or its workspace or chooses another session of that scope |
| `ChatSessions.SetCurrentTakesEffect` | src-tauri/src/chat_sessions.rs:342-363 | the chosen session is then the active one if and only if it is global or of the current workspace |
| `ChatSessions.SetCurrentMisses` | src-tauri/src/chat_sessions.rs:342-363 | a sound state in which choosing a session activates another |
| `ChatSessions.PointersApart` | src-tauri/src/chat_sessions.rs:222-228 | every scope has a pointer key of its own |
| `ChatSessions.NewestIsNewest` | src-tauri/src/chat_sessions.rs:112-128 | the fallback is a most recently updated session of the scope, and there is none only if the scope is empty |
| `ChatSessions.Store.EnsureCurrent` | src-tauri/src/chat_sessions.rs:308-326 | migrate, read the pointer, else newest, else create "Main", then point |
| `ChatSessions.Store.MigrateLegacyPointer` | src-tauri/src/chat_sessions.rs:293-303 | adopts a non-empty legacy pointer when no global one is set |
| `ChatSessions.Store.Create` | src-tauri/src/chat_sessions.rs:154-189 | appends exactly the session named, or refuses a blank name, a missing workspace id or an unknown workspace and changes nothing |
| `ChatSessions.Store.Rename` | src-tauri/src/chat_sessions.rs:191-202 | renames and touches the session with the id, or reports that there is none |
| `ChatSessions.Store.Touch` | src-tauri/src/chat_sessions.rs:210-218 | sets the time of the session with the id and nothing else |
| `ChatSessions.Store.Remove` | src-tauri/src/chat_sessions.rs:204-208 | exactly the session with the id is gone |
| `ChatSessions.Store.SetCurrent` | src-tauri/src/chat_sessions.rs:342-363 | sets the scope and that scope's pointer |
| `ChatSessions.Store.SwitchScope` | src-tauri/src/chat_sessions.rs:367-370 | sets the scope and resolves |
| `WorkspaceSwitch.NeverMixed` | frontend/src/App.tsx:91-117 | for any overlapping reloads and backend events, canvas, agents and tasks are each empty or of the current workspace; once the newest reload completes, all belong to its target |
| `WorkspaceSwitch.StaleReloadStops` | frontend/src/App.tsx:95-112 | a reload that is not the newest writes nothing and stops at its next continuation |
| `WorkspaceSwitch.HoldsWhatWasLoaded` | frontend/src/App.tsx:106-113 | in every run the store holds exactly the agents of the last list loaded and those spawned into the workspace since, and the tasks of the last list loaded |
| `WorkspaceSwitch.ReloadLoads` | frontend/src/App.tsx:91-117 | a reload left alone, from any state, completes with the pruned layout, the agents and the tasks of its workspace |
| `SavedLayout.ExitKeepsIff` | frontend/src/App.tsx:171-184 | for every run, every exit in it and whatever happens until its save lands: the landing save keeps every pane but the agent's if and only if, apart from the agent, the canvas showed at the exit what is saved at the landing; so it does if the write then saved is the one shown, and with a canvas cleared by a switch only if nothing else is saved |
| `SavedLayout.InStepKeeps` | frontend/src/App.tsx:171-184 | in every run, while the canvas shows what the saves under way will leave, the next of them to land keeps every other pane, and with none under way the canvas is the saved layout |
| `SavedLayout.StaysInStep` | frontend/src/App.tsx:171-184 | so any number of exits whose saves land in order lose nothing while none of the other writers comes between |
| `SavedLayout.FallsOutIff` | frontend/src/App.tsx:91-105 | in every run a canvas falls out of step exactly by entering a workspace, by an answer or a layout event that is not the write shown, by a backend save, by a pruning for another reload, or by a save of its own that fails or lands ahead of an earlier one; never by an exit |
| `SavedLayout.SaveTouchesOne` | frontend/src/App.tsx:178-182 | an exit stores nothing itself, and its save no other workspace's layout |
| `SavedLayout.InSyncExitLoses` | frontend/src/App.tsx:182-182 | from any state of any run with the canvas in sync: a backend save between an exit and the landing of its save is overwritten by the old tree without the agent, and nothing else is lost if and only if the two agree apart from the agent |
| `SavedLayout.SavedLayoutLost` | frontend/src/App.tsx:94-103 | while the canvas is cleared for a switch, the exit of any agent overwrites any saved layout of the workspace entered with the empty one |
| `SavedLayout.OvertakenAnswerLoses` | frontend/src/App.tsx:103-105 | for any two trees: a layout event overtakes an older answer, and the next exit saves the older tree |
| `SavedLayout.EventUnderWayLoses` | frontend/src/App.tsx:195-200 | for any two trees: an exit before a layout event arrives saves the older tree, and the newer is then shown but not saved |
| `WorkspaceSwitch.App.Begin` | frontend/src/App.tsx:91-94 | advances the generation counter |
| `WorkspaceSwitch.App.AfterList` | frontend/src/App.tsx:94-102 | clears the store and sets the current workspace, or stops if stale |
| `WorkspaceSwitch.App.AfterWorkspace` | frontend/src/App.tsx:103-105 | shows the loaded layout, or stops if stale |
| `WorkspaceSwitch.App.AfterAgents` | frontend/src/App.tsx:106-108 | shows the loaded agents, or stops if stale |
| `WorkspaceSwitch.App.AfterTasks` | frontend/src/App.tsx:111-113 | shows the loaded tasks, or stops if stale |
| `WorkspaceSwitch.App.GiveUp` | frontend/src/App.tsx:114-116 | a failing await ends the reload |
| `WorkspaceSwitch.App.OnAgentSpawned` | frontend/src/App.tsx:185-194 | an agent is adopted only into the current workspace |
| `WorkspaceSwitch.App.OnAgentExit` | frontend/src/App.tsx:171-184 | closes the leaf, and sends the result off under the current workspace without storing it |
| `WorkspaceSwitch.App.OnLayoutChanged` | frontend/src/App.tsx:195-200 | shows the announced layout if it is of the current workspace |
| `WorkspaceSwitch.App.Serve` | src-tauri/src/commands.rs:32-41 | prunes the saved layout, storing it if that removed something, and answers with it |
| `WorkspaceSwitch.App.Announce` | src-tauri/src/orchestrator/tools.rs:401-407 | stores a layout and announces it |
| `WorkspaceSwitch.App.Land` | src-tauri/src/commands.rs:86-95 | carries out one of the saves under way, in any order, or reports that the workspace is missing |
| `ChunkBuffer.Coalescer.ScheduleChunk` | frontend/src/App.tsx:67-78 | buffers the delta; chat followed by buffer is what was streamed, and a buffered delta has a timer |
| `ChunkBuffer.Coalescer.Fire` | frontend/src/App.tsx:70-77 | delivers everything: the chat holds all that was streamed |
| `ChunkBuffer.Coalescer.Cleanup` | frontend/src/App.tsx:291-298 | on unmount nothing buffered is lost and no timer stays |
| `ChunkBuffer.Coalescer.Deliver` | frontend/src/App.tsx:74-76 | the loop appends each entry once |
| `ChunkBuffer.DeliverOne` | frontend/src/state/store.ts:173-194 | delivering one entry and then the rest is delivering all |
| `ChunkBuffer.Buffered` | frontend/src/App.tsx:68-68 | merging a delta into the buffer keeps chat plus buffer equal to the stream |

## Left out

- SQLite, connection pools and migrations: tables are sequences or maps of rows and settings are a map; database errors do not occur, except that a claim may fail and a foreign key may be violated.
- Every queue statement is one atomic step: two enqueues on one session do not interleave (the source runs several statements without a transaction), and `mark_done` and `mark_failed` succeed. Row and session ids are fresh.
- Consecutive-duplicate rejection is a rule of `ChatQueue.AcceptedIff`, not an invariant: a cancel in the middle can bring equal texts together.
- Queue snapshots for the UI, `pending_count`, and what a chat turn does.
- `Framing.Reader.ReadFrame`: streams are Unicode scalar values, so invalid UTF-8 and I/O errors are not modelled; the async twins (`src-tauri/src/agentd/framing.rs:115-171`) have the same branches and no members of their own; the limit is a parameter.
- `AgentClient.Correlation`: ids are unbounded, the bounded channel to the write loop and its order are not modelled, JSON is opaque, and frames that are events or unparsable are skipped steps.
- `AgentClient.ReturnsIffRegistered`: says what can happen, not when; scheduling and timeouts are not modelled.
- `Engine.StreamAndLogAgree`: for ids spawned once; `Engine.StreamAcrossSpawns` covers ids used again, for the bytes but not for where an Exit falls among the next child's events. The log is writable, and spawning is one step up to the reader thread's start. Processes, PTYs, `resize`, and the readiness gate of `write`, which is about time, are left out.
- `EventPump`: events lost to a lagging channel, undecodable chunks, the ingest lane, the last-output cache, the status row written at an exit and broker shutdown are left out; an app handle is taken to be set.
- `Workspace.Store.RestoreSession`: the broker's answer is a parameter, and registering with the chat buffer and announcing agents afterwards are left out.
- Split ratios are opaque reals; `setRatioAt`, `isAgentInLayout` and tree cloning only add easy members.
- `findTrigger`, `isPathLike` and `stripControlAndCollapse` are left out, as is which caret position the browser reports after the text was replaced: `StripControl.CaretFix` holds for every caret.
- `ChatSessions.NewestIsNewest`: sessions updated at the same instant are ordered by their place in the table, where SQL leaves it open.
- `WorkspaceSwitch.NeverMixed`: the initial load, the deletion branch and `useSwitchWorkspace` do not use the counter and are left out, as are workspaces created or deleted during a run, and the task board, which writes the store's tasks from a `listTasks` answer of its own that no later switch cancels (`frontend/src/components/KanbanBoard.tsx:31-40`).
- `SavedLayout.ExitKeepsIff`: of the frontend's writers of the layout only exits are modelled; closing, splitting, respawning and resizing a tile are left out. The backend's reading and pruning of a layout is one step.
- `PathMention.ComposerLabelsDistinct`: the component that owns the attachment list is taken only to pass changes back and to empty the list on sending.
- `ChunkBuffer`: replacing or inserting whole chat messages while deltas are buffered is left out.
- React components, themes, voice, prompts, secrets, deep links, file sandboxing, and the orchestrator's own internals.
