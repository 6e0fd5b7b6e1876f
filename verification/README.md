# Harness, modelled and proved in Dafny

Harness is a desktop host for coding agents. It keeps a ledger of messages per session, runs a model and its
tools against it, streams what happens to subscribers, lets sessions delegate to child sessions, and applies
file patches inside a sandbox. This project models the parts of it whose correctness is not visible from any
one function, and proves what those parts rely on: for every input, every run, and every interleaving of the
lock-held regions.

Where the Go code updates fields or slices step by step, the model is a class or a loop whose method is proved
equal to a specification function. The lemmas then speak about those functions, or about state machines whose
steps they are. Protocols are state machines with one step per lock-held region; a theorem quantifies over all
finite sequences of enabled steps. What the outside world decides (the model's answers, the network, I/O
failures, the clock, cancellation) is a parameter of a step or an arbitrary choice.

## The components

- **Event stream** (`RunUpdates`, `RunListener`, `LiveRun`, `EventStream`). A run changes its state and draws
  an update number under its locks and publishes later, so updates arrive in any order. A subscriber buffers
  them, cuts a snapshot, and delivers a contiguous stream. `EventStream.Delivery` is the main result.
- **Inputs of a run** (`Inputs`, `Steering`, `Notifications`). Steering messages and child reports are admitted,
  committed at checkpoints, or rejected when the run closes. `Steering.Promises` is the main result.
- **Delegation** (`Delegation`, `StopProtocol`, `StopReasons`, `DepthLimit`). Three relation indexes, permits that carry a generation, and
  stops and deletions that reach a whole task tree while spawns and sends are under way.
  `StopProtocol.StopsReachEveryRun` is the main result.
- **Ledger, fork and compaction** (`Messages`, `Ledger`, `Fork`, `Estimates`, `Compact`). A parent-pointer tree
  projected to the model's history, with summaries that refer to earlier entries. Copying a branch renames every
  identity and keeps the history; compaction replaces the history by exactly what was checked.
- **The model loop** (`ModelReply`, `ReAct`). Every batch of tool calls is answered, whatever is cancelled or fails; an
  answer says what its stream has brought; and tools run only for recorded calls, each at most once.
- **apply_patch** (`PatchTypes`, `Trimming`, `PatchParser`, `PatchGrammar`, `PatchPrinter`, `PatchEnvelope`, `SourceText`,
  `FileUpdate`, `PatchMeaning`, `PatchMatching`, `ReadBack`). From the patch text to the new file contents, and to what is read from them again.
- **Run diff** (`LineStats`, `RunDiff`) and **file batches** (`FileCommit`). The net change of a run, its guarded
  undo, the line counts by a two-row table, and what a batch of writes reports after a failure.
- **Permissions** (`Permissions`) and the **seccomp filter** (`Seccomp`). The grant algebra over write roots with
  protected children, and the small compiler from syscall lists to BPF together with a BPF interpreter.
- **Path locks** (`PathLocks`) and **deletion** (`Delegation.Tasks.ReserveDeletion`, `DiskDeletion`).

`Basics` holds shared value types, the order of strings, line splitting, and what it means to pick entries out of a list.

## Where the code does less than one might expect

Each of these is a proved statement together with an exact condition or a concrete input.

- Replacements of one patch are sorted by position only. A chunk without old lines goes to the end of the file;
  when it precedes a chunk that itself appends lines at the end of the file, its lines slip in front of those.
  The plain reading of the patch holds if and only if the two lists of lines commute
  (`PatchMeaning.ExactUpdate`), in particular when no such chunk precedes the last chunk with old lines
  (`PatchMeaning.InsertionsLast`); `PatchMeaning.EarlyInsertionSlipsIn` is an input where it does not.
- An empty ledger accepts a compaction, whose boundary is then no entry. A branch that starts with such an entry
  is the one kind of branch that cannot be forked (`Fork.EmptyLedgerAcceptsCompaction`, `Fork.ForkBranch`).
- Adding a write root takes access away exactly when one of its protected children is writable at that moment
  without being a root of its own (`Permissions.UnguardedGrantLosesAccess`, for instance
  `Permissions.UnguardedGrantExample`). The guard in `ApplyDecision` is what
  makes approvals monotone (`Permissions.ApprovalIsExact`).
- An automatic compaction that fails takes its draft back without an update. A subscriber that was told of its
  text goes on showing it until the run ends (`EventStream.DroppedDraftStays`; the exact condition is in
  `EventStream.Delivery`).
- The first user entry is in the ledger for a moment before its update has a number. A snapshot cut in that
  moment holds the entry early; the subscriber ignores the update by its entry ID
  (`EventStream.EarlyMeetsItsUpdate`). When the run's record cannot be saved, no update ever follows
  (`EventStream.MissedEntryStays`).
- An undo whose new diff cannot be stored reports an error although the file has been put back. When it is the
  diff's body that was lost, the line stays listed, and no further undo of it goes through while the file stays as
  it is (`RunDiff.HalfUndoneStays`). When only the summary was lost, the line is gone from the stored body
  (`RunDiff.DiffStore.RevertRunDiffFile`).
- A creation that fails while writing is reported as inexact even when no file is left: the code asks
  `os.IsNotExist` of a wrapped error, which never holds (`FileCommit.CommitFileChanges`).
- The written file reads back as the finished lines if and only if no text holds a line break of its own and no
  bare carriage return comes to stand directly in front of an empty line that ends in a line feed
  (`ReadBack.UpdateReadsBack`, `ReadBack.ExpectedReadsBack`). An insertion can bring that about
  (`ReadBack.InsertedLineMerges`), and so can a deletion (`ReadBack.DeletionMerges`); a carriage return inside a line of the
  patch splits that line (`ReadBack.InsertedLineSplits`). With one kind of line ending and no such carriage return the
  file reads back as expected (`ReadBack.ReadBackExpected`).
- A stop that crosses a permit calls `StopRun` for the run, unless the run was over before the stop
  (`StopProtocol.StopsReachEveryRun`).

## Model

| member | source | states |
|---|---|---|
| EventStream.Delivery | internal/appserver/harness_run.go:92-219 | In every interleaving a started subscriber has been given exactly the events after its snapshot, numbered snapshot+1 onwards without gap or repetition, and nothing deliverable is held back while the connection stands. With no publishing under way, folding them gives the present ledger if and only if no first user entry stayed without an update since the snapshot, and the present non-empty drafts if and only if no draft was dropped silently since and every draft of an ended run was written; otherwise it gives exactly these besides. |
| EventStream.MoveKeeps | internal/runner/emit.go:86-295 | Every step of the runner, the dropped draft of a failing automatic compaction and failing writes included, keeps its state and the numbered updates in step but for what it does silently. |
| EventStream.FoldFromCut | internal/runner/snapshot.go:12-50 | The updates numbered after a snapshot and up to any later moment, folded over it, give the state the run had at that moment, but for what had happened silently by then. |
| EventStream.EarlyMeetsItsUpdate | internal/runner/snapshot.go:12-50 | An entry that the snapshot already holds and whose update follows is counted once. |
| EventStream.StepKeeps | internal/appserver/harness_run.go:162-219 | The invariant behind delivery survives every step: runner moves, publishing in any order, cutting, receiving, starting and disconnecting. |
| EventStream.UndisturbedDelivery | internal/appserver/harness_run.go:92-219 | In every run in which no draft is taken back, the final drafts are written and run records are saved, a subscriber that has been given everything shows the present ledger and drafts. |
| EventStream.ServedSubscriber | internal/appserver/harness_run.go:162-219 | In every run in which the connection is left alone and no more than 128 events wait for a missing one, the subscription never ends, and with no publishing under way the subscriber shows the present ledger and drafts but for what happened silently. |
| EventStream.CutKeeps | internal/runner/snapshot.go:31-50 | A snapshot shows exactly the ledger, the non-empty drafts and the number of one moment, whatever happened silently before. |
| EventStream.DroppedDraftStays | internal/runner/compact.go:205-213 | A reachable state in which a subscriber that has been given everything shows a draft the run no longer has. |
| EventStream.MissedEntryStays | internal/runner/run.go:382-399 | A reachable state in which the user entry of an ended run is in the ledger and no update has ever told of it. |
| RunListener.Subscriber.Receive | internal/appserver/harness_run.go:162-188 | An event of the own session and process with a number beyond the snapshot is buffered before the start and buffered or delivered after it; everything else changes nothing, except that an event of another process ends a started subscription, and so does a buffer over the limit: the subscription ends in exactly these two cases. |
| RunListener.ReceivedExactly | internal/appserver/harness_run.go:162-188 | No news is refused: what becomes of each event, before and after the start. |
| RunListener.EndsExactly | internal/appserver/harness_run.go:162-188 | A subscription ends if and only if a started one meets another process, or more than 128 events stay buffered. |
| RunListener.Subscriber.Start | internal/appserver/harness_run.go:190-206 | Starting drops what the snapshot covers, ends the subscription on a foreign epoch, and delivers what is contiguous, in whatever order the map is walked. |
| RunListener.Subscriber.Flush | internal/appserver/harness_run.go:209-219 | The loop delivers the longest contiguous stretch and leaves the rest. |
| RunListener.FlushDelivers | internal/appserver/harness_run.go:209-219 | If the buffer holds events of a log under their own numbers, then what flushing delivers is a range of that log, nothing deliverable is left, and nothing newer is lost. |
| RunListener.FlushExact | internal/appserver/harness_run.go:209-219 | What a flush hands on are the buffered events of the next numbers, in order, up to the first gap; exactly the rest stays, and the subscription is not ended by it. |
| LiveRun.Run.StartDraft | internal/runner/emit.go:86-111 | A draft is anchored behind the latest output, one that is there already stays as it is, the next number is taken and no other draft changes; nothing happens for a message that has landed, and one without an identity is an error. |
| LiveRun.Run.ApplyDelta | internal/runner/emit.go:113-150 | The text is added at its block of the one draft and the next number is taken in one step; nothing happens for a message that has landed, and one without an identity is an error. |
| LiveRun.Run.PersistLoopMessage | internal/runner/emit.go:152-223 | Ledger entry, removal of the draft and the number happen together; a refused or repeated message changes nothing; a message without an ID gets the one drawn for it. |
| LiveRun.Run.PersistOpenDrafts | internal/runner/emit.go:225-295 | A draft that cannot be written stays as it was; every other one had no text or reasoning, or stands among the entries written, under its own identity and at its anchor, with every block that says something, in its order, once, and nothing else. Only drafts are written, and they are numbered in ledger order; when every write works no draft is left. |
| RunUpdates.ApplyDraftText | internal/runner/emit.go:368-381 | A delta goes to the end of its block, creating blocks up to it. |
| RunUpdates.ContentSurvives | internal/runner/snapshot.go:120-127 | A draft is shown in a snapshot exactly when its end would write an incomplete message. |
| RunUpdates.IncompleteKeeps | internal/runner/emit.go:297-308 | What is written of a draft are exactly its text and reasoning blocks with text, each once and in the draft's order. |
| RunUpdates.NoWordLost | internal/runner/emit.go:297-308 | The text of what is written is the text of the draft. |
| Inputs.RunInputs.Steer | internal/runner/steer.go:42-84 | An input is admitted behind the others and closes the signal, or is refused at once with the right error. |
| Inputs.RunInputs.Receive | internal/runner/collaboration.go:11-59 | A report already in the ledger is confirmed, one already waiting or at a closed run is left to its sender, a different source under the same ID is a conflict, and only a new one is admitted. |
| Inputs.ReceiveMeans | internal/runner/collaboration.go:11-75 | A report is acknowledged only when the ledger has it from the same run; one that waits is not taken in again; a new one is taken in behind the others exactly while the run is open; the same identity with another origin is a conflict. |
| Inputs.RunInputs.Checkpoint | internal/runner/steer.go:142-223 | The pending inputs reach the ledger in order up to the first refusal; the signal is renewed; a final checkpoint without inputs closes the gate. |
| Inputs.RunInputs.FinishInputs | internal/runner/steer.go:313-328 | The gate closes and exactly the inputs still pending are rejected. |
| Steering.Promises | internal/runner/steer.go:42-328 | Every caller is in exactly one place (waiting, decided, answered). A nil answer means that the message is in the ledger and its publishing did not fail, a publishing error that it is in the ledger all the same, and "run changed" that it is not; each written message has one of the first two. Commits follow admission order; unless the run is cancelled its signal is closed if and only if inputs are pending; each report ID occurs at most once in ledger and pending inputs together, and is acknowledged or confirmed only when in the ledger. |
| Steering.CheckpointAnswers | internal/runner/steer.go:172-229 | What a checkpoint decides for each caller: nil or the publishing error for what it wrote, the ledger's error for what it did not get to. |
| Steering.FinishAnswers | internal/runner/steer.go:313-328 | Closing a run tells every caller who still waits at it that the run has changed, and leaves nothing pending. |
| Steering.SteerLands | internal/runner/steer.go:42-229 | A steer to the open run it means is let in, and the next checkpoint that writes everything puts that very message into the ledger, answers its caller and leaves the run open. |
| Steering.ReportLands | internal/runner/collaboration.go:11-59 | A report that is new to an open run is let in, is in the ledger after the next checkpoint that writes everything, and is acknowledged when it is sent again. |
| Steering.FinalCheckpointIsFinal | internal/runner/steer.go:142-170 | After an empty final checkpoint no steering input and no report is admitted to the run, in any continuation. |
| Steering.ShutForGood | internal/runner/steer.go:42-84 | At every later step of any run of steps: a steer to the closed run is answered at once, a report is left with its sender, and no checkpoint of it writes anything. |
| Steering.ClosedForGood | internal/runner/steer.go:231-244 | A closed gate never opens again. |
| Steering.DeliveryKeeps | internal/runner/collaboration.go:11-75 | Each step keeps every report at most once in ledger and pending inputs, and confirmations honest. |
| Steering.AccountsKeep | internal/runner/steer.go:172-229 | Each step neither loses a caller nor answers one twice. |
| Notifications.Deliveries.Report | internal/subagents/notifications.go:117-140 | A task needs no further retry only if all its reports are confirmed, and no confirmed report is missing from the ledger of its own task's parent; and it needs one only if the service is closing, a result is missing or the parent has not taken a report. |
| Notifications.Deliveries.Deliver | internal/subagents/notifications.go:85-152 | The retry list and the delivery error of one task after a pass, case by case. |
| Notifications.Deliveries.DeliverTasks | internal/subagents/notifications.go:56-156 | A task leaves the retry list only when its projection is gone or every one of its reports is in its own parent's ledger; and when nothing outside goes wrong every task whose turn it is comes out settled. |
| Notifications.PruningMissesReports | internal/subagents/delete.go:71-75 | Removing the IDs of deleted tasks from the cache of confirmed reports removes no report, for any tasks and any reports. |
| Notifications.IdentityFixesTask | internal/subagents/turn.go:35-37 | The name of a report fixes the task and the turn it reports on. |
| StopProtocol.StopsReachEveryRun | internal/subagents/stop.go:9-90 | For every interleaving of spawns, sends, stops and deletions: a run whose permit a stop has crossed has had `StopRun` called or was over before, once its operation has checked again; a run whose start was handled is cancelled as soon as it is crossed; one crossed before never enters its loop. |
| StopProtocol.DeletionIsFinal | internal/subagents/delete.go:10-77 | For every interleaving: no task is ever found under a deleted session again, although spawns and sends for it may be under way, and no child run is active whose parent has been deleted. |
| StopProtocol.DeleteKeeps | internal/subagents/delete.go:58-76 | Deleting drops counters and tasks, but none that an operation holding a lock or an active run still depends on. |
| StopProtocol.StepKeeps | internal/subagents/send.go:135-208 | Every step of spawning, sending, stopping, deleting and running keeps the protocol's invariant. |
| StopProtocol.PassedMeansUncovered | internal/subagents/turn.go:10-33 | No stop has crossed a permit whose check after the start passes. |
| StopProtocol.FamilyStopKeeps | internal/subagents/stop.go:39-57 | Stopping a family reaches each active run that the raised generations cross. |
| StopProtocol.TaskStopKeeps | internal/subagents/stop.go:9-36 | Stopping a task marks it and reaches each run of it and below it. |
| StopProtocol.CrossedInTree | internal/subagents/stop.go:61-90 | What a tree's stop newly crosses lies in that tree. |
| StopProtocol.StartHandledKeeps | internal/subagents/family.go:115-139 | Handling the start notification cancels a run that a stop has crossed by then. |
| StopProtocol.SecondCheckKeeps | internal/subagents/turn.go:10-33 | The check after the start closes the window in which a run may be crossed without being stopped. |
| StopReasons.NoNeedlessStop | internal/subagents/stop.go:61-90 | For every interleaving: `StopRun` is called for a child run only if a stop has crossed its permit, the service has closed, its parent was deleted, or the family of its own session was stopped. |
| StopReasons.SpawnGetsThrough | internal/subagents/spawn.go:14-182 | From every reachable state, a spawn that may be admitted and that nobody crosses ends with its child's run in the loop, under the task's parent, not cancelled and not stopped. |
| StopReasons.SendGetsThrough | internal/subagents/send.go:77-208 | From every reachable state, a message to an idle child starts a turn that reaches its loop, also when the task had been stopped before the message was accepted. |
| Delegation.StopEndsPermit | internal/subagents/family.go:62-98 | A permit holds from the moment it is given; stopping a tree takes it away exactly when its session lies in the tree, and then the same run is never admitted again while a later run of the session is, under the next generation. |
| Delegation.Tasks.SessionDepth | internal/subagents/family.go:26-45 | The loop returns the number of ancestors, and an error exactly for a chain that is broken or cyclic. |
| Delegation.Tasks.StopOne | internal/subagents/stop.go:61-90 | One session of the walk: its generation, its stopped run and the marks of its tasks. |
| Delegation.Tasks.StopSessionTree | internal/subagents/stop.go:61-90 | The queue loop stops exactly the sessions of the tree below the root, each once. |
| Delegation.Tasks.Forget | internal/subagents/spawn.go:184-200 | A task leaves all three indexes. |
| Delegation.PublishAgrees | internal/subagents/spawn.go:134-147 | Publishing a task keeps the three relation indexes in agreement. |
| Delegation.ForgetUndoesPublish | internal/subagents/spawn.go:184-200 | Taking back a task that was just published restores the indexes exactly. |
| Delegation.ForgetAgrees | internal/subagents/spawn.go:184-200 | Taking back a task keeps the indexes in agreement. |
| DepthLimit.DepthStaysLimited | internal/subagents/spawn.go:30-48 | In every interleaving of spawns, sends, stops and deletions no child session ever lies deeper than the limit, although each spawn measures its parent in a lock section of its own. |
| DepthLimit.NeverDeeper | internal/subagents/family.go:26-45 | No step makes a session that is there already lie deeper, so an early measurement stays an upper bound. |
| DepthLimit.RoomForChild | internal/subagents/spawn.go:30-48 | Exactly the root sessions and their direct children have room for a child of their own. |
| Delegation.Tasks.CollectDeletion | internal/subagents/delete.go:19-44 | The walk collects the roots and everything below them, or stops because one of those is active or being deleted. |
| Delegation.Tasks.ReserveDeletion | internal/subagents/delete.go:10-77 | Either nothing changes, or exactly the roots and all descendants are frozen, their tasks leave all three indexes, and the indexes still agree. |
| Delegation.PruneAgrees | internal/subagents/delete.go:71-76 | The indexes still agree after any set of tasks has been removed from them. |
| Delegation.PruneOne | internal/subagents/delete.go:67-75 | Forgetting tasks one by one is pruning the indexes by the whole set. |
| DiskDeletion.NotPendingMeansUntouched | internal/conversations/deletion.go:33-64 | When the caller hears that nothing is pending the disk is untouched; otherwise it is untouched or holds the intent. |
| DiskDeletion.WhatIsSaved | internal/conversations/deletion.go:37-79 | A malformed intent never reaches the disk; any other one is there, and is said to be, once its write goes through. |
| DiskDeletion.Files.FinishDeletion | internal/conversations/deletion.go:113-156 | The removals in order, the intent last. |
| DiskDeletion.ReplayConverges | internal/conversations/deletion.go:82-156 | However often and wherever the clean-up is cut off, even part way through a directory, the first complete recovery leaves the disk an undisturbed run would have left, in any order of intents. |
| DiskDeletion.RecoveryCompletes | internal/conversations/deletion.go:82-111 | After any number of starts that were cut off the next can be carried through, in any order of the intents that are left, and leaves that same disk. |
| DiskDeletion.WhatIsCleaned | internal/conversations/deletion.go:113-156 | That disk lacks exactly the tasks and sessions the intents name, the approvals of their workspaces, the hooks' trust in the workspaces these were trusted for, and the intents. |
| DiskDeletion.UninterruptedIsCleaned | internal/conversations/deletion.go:113-156 | An undisturbed deletion gives the same final disk. |
| DiskDeletion.AllOrNothing | internal/conversations/deletion.go:258-297 | From the first write of the intent to the first complete recovery, next to any intents already pending: the disk is the one recovery leaves without this deletion, or the one it leaves with this deletion carried out completely. |
| Ledger.Session.AppendID | internal/session/session.go:30-80 | A refused message leaves the ledger alone; an accepted one becomes the new head with the next number, the path grows by exactly it, and unless it is a summary the history grows by exactly its projection. |
| Ledger.AcceptedExactly | internal/session/session.go:38-65 | Which messages the ledger takes in: the names, blocks and senders it asks for, and of a compaction the boundary and the retained entries, each once and on the present path. |
| Ledger.Session.Branch | internal/session/session.go:238-249 | The head moves to an existing entry or stays. |
| Ledger.Session.Entries | internal/session/session.go:210-235 | The walk over parents, reversed, is the path from the root to the head. |
| Ledger.Session.ContextEntries | internal/session/session.go:143-166 | The effective context: the last summary, what it retained, and everything that follows it. |
| Ledger.Session.History | internal/session/session.go:126-140 | The history is the projection of the effective context. |
| Ledger.HistoryGrows | internal/session/session.go:126-166 | One more entry on a path: an ordinary message joins the history at its end, a summary replaces it by itself and what it retains. |
| Ledger.AppendedHistory | internal/session/session.go:66-166 | After an accepted ordinary message the session's history is longer by exactly its projection, also behind any number of compactions. |
| Messages.ProjectMeans | internal/session/session.go:126-207 | What the model is shown of a message: a summary as a user's text under the handover heading, an unfinished one with exactly its text and reasoning blocks and a mark, any other as it is. |
| Ledger.NewLeafKeepsPaths | internal/session/session.go:66-80 | Appending an entry changes no existing path. |
| Ledger.PathDistinct | internal/session/session.go:210-235 | No entry occurs twice on a path. |
| Ledger.Reopen | internal/session/store.go:141-177 | Closing and reopening keeps the tree and the numbering and moves the head to the last entry written. |
| Fork.ForkBranch | internal/session/store.go:55-138 | Forking fails on a missing target, or on a reference exactly when the branch starts with a compaction; otherwise the copy, under new names and numbers, has the source's history at the chosen entry. |
| Fork.ForkKeepsHistory | internal/session/store.go:69-113 | Renaming all identities along a branch keeps its projected history. |
| Fork.PickRenamed | internal/session/session.go:143-166 | Looking up renamed references among renamed entries finds the copies of the originals. |
| Fork.EmptyLedgerAcceptsCompaction | internal/session/session.go:51-65 | An empty ledger accepts a compaction whose boundary is no entry, the one cause of a failing fork. |
| Estimates.EstimateInput | internal/llm/context.go:28-53 | The accumulating loops compute the additive estimate. |
| Estimates.HistorySplits | internal/llm/context.go:28-53 | The estimate of a history is the sum over any cut of it. |
| Estimates.OneMore | internal/llm/context.go:28-53 | One message at the front costs its own estimate, so suffix sums plus the fixed 16 are estimates of tails. |
| Estimates.TextCosts | internal/llm/context.go:55-65 | Three ASCII letters make a token, begun ones counted; every other letter makes two. |
| Estimates.TextSplits | internal/llm/context.go:55-65 | Cut anywhere, a text costs what its parts cost, but for one token at most. |
| Estimates.BlockSplits | internal/llm/context.go:28-53 | A picture costs 4096 and a call or result 16 beside its text, whatever else the block holds. |
| Estimates.FixedCosts | internal/llm/context.go:28-53 | Besides what is said a request costs 16, each message 8 and each tool 16. |
| Compact.CompactSelection | internal/runner/compact.go:135-184 | The cut is the first boundary whose tail fits, else the last one, and 0 or one earlier user entry is retained beside the tail; an error exactly for a short ledger, an open call or no boundary. |
| Compact.SuffixSums | internal/runner/compact.go:158-161 | `suffix[i]` plus 16 is the estimate of the tail from `i`. |
| Compact.BoundaryAnswersCalls | internal/runner/compact.go:141-153 | In front of a boundary every tool call has a later result. |
| Compact.BoundaryExactly | internal/runner/compact.go:139-153 | A history may be cut exactly in front of an entry that is no tool result and when no call before it lacks a later result. |
| Compact.RetainedInOrder | internal/runner/compact.go:171-183 | The retained IDs are distinct and stand in ledger order. |
| Compact.RetainedExactly | internal/runner/compact.go:171-183 | Retained is everything from the cut on and the user's latest entry, and nothing else. |
| Compact.CompactionAccepted | internal/session/session.go:51-65 | The ledger never refuses what the selection retained. |
| Compact.ReplacementIsHistory | internal/runner/compact.go:261-271 | With the summary appended, the session's history is exactly the replacement list. |
| Compact.CompactHistory | internal/runner/compact.go:186-297 | A commit leaves exactly the checked replacement as history, headed by the streamed summary, smaller than before and within budget; every failure leaves the ledger untouched and has one of the listed reasons, so that a compaction nothing stands against is committed. |
| Compact.Propose | internal/runner/compact.go:186-281 | What is decided before the commit: the right cut and what it retains, a summary request inside the window, the text of the stream, and a smaller request; or the reason why not. |
| Compact.ReadSummary | internal/runner/compact.go:220-257 | The summary is the text of all pieces, when nothing but text came and the model stopped by itself; every other stream has the error of its first disturbance or of its end. |
| ReAct.Run | internal/loops/react/react.go:23-103 | For every execution, cancelled anywhere: unless `Emit` failed all calls in the ledger are answered, and results are never out of order or behind other input. Every compaction and every request sees the initial history or the last replacement, with all that the ledger has got since behind it. Tools run only for calls in the ledger, each at most once and in order. The loop ends when an answer calls nothing and nobody has added anything, and stops earlier only if it is cancelled, `Emit` failed, or the last stream, a compaction or a checkpoint did. |
| ReAct.Round | internal/loops/react/react.go:40-102 | One round: it goes on only when the answer calls tools or the checkpoint brings inputs, with all of them in the next history, and finishes only when there is neither or the stream brought nothing. |
| ReAct.AskInRoom | internal/loops/react/react.go:41-68 | A compacting run compacts before every request, and an overflow ends it only after one more compaction. |
| ReAct.BatchAnswered | internal/loops/react/react.go:66-95 | In an answered ledger a message with k calls is followed by exactly k results with its IDs in order before anything else. |
| ReAct.EveryResultIsOwed | internal/loops/react/react.go:229-354 | Every result belongs to the batch of the last message before it that is no result. |
| ReAct.AnsweredLeavesNothingPending | internal/runner/compact.go:141-156 | On an answered history the scan of the compaction finds no open call. |
| ReAct.Batch | internal/loops/react/react.go:71-86 | A batch ends with all calls answered, whether executed, cancelled half-way or stopped before; one that is not cancelled hands every call to the registry, in order. |
| ReAct.Execute | internal/loops/react/react.go:229-328 | Every executed call leaves one result with its ID. Unless the call was refused or the run cancelled its tool has run exactly once, and the result conveys the tool's answer; its only failures are a cancellation with the result in place and a failed `Emit`. |
| ReAct.FinishUnexecuted | internal/loops/react/react.go:331-354 | The calls not executed are answered in order, each as not executed. |
| ReAct.Request | internal/loops/react/react.go:105-202 | A reply says letter by letter, call by call and token by token what its stream has brought, and its calls are its message's call blocks in order; a request that overflowed the window has written nothing. |
| ReAct.Receive | internal/loops/react/react.go:136-214 | Reading the stream: a finished answer utters exactly the stream; of one that broke off exactly the letters before the break are kept, as an incomplete message without calls; a nameless call leaves nothing. |
| ModelReply.TextKeeps | internal/loops/react/react.go:385-396 | Text joins the last block of its kind or opens a new one, and what the answer says grows by exactly that text. |
| ModelReply.SpokenSays | internal/loops/react/react.go:356-368 | What is kept of a broken answer are exactly its letters, in order, without calls and continuation tokens. |
| ModelReply.CallsUttered | internal/loops/react/react.go:168-178 | The calls of an answer are the calls it utters, in order. |
| ReAct.Call | internal/tools/registry.go:214-293 | The only error that escapes is the context's; a refused call never runs the tool and is answered as an error; any other runs it once unless the run is cancelled, and gives its answer; a file change made before a cancellation is handed on. |
| Permissions.ApprovalIsExact | internal/permissions/rules.go:95-143 | After an approval the request evaluates to Allow, no path loses write access, every newly writable path lies under a requested root, only requested roots are added, and the network is on if and only if it was or was asked for. |
| Permissions.AllowedExactly | internal/permissions/rules.go:70-91 | A request is allowed exactly when nothing restricts it, or the network it asks for is on and each of its paths lies under a grant that no protected directory takes back. |
| Permissions.OthersUnaffected | internal/permissions/rules.go:95-116 | What lies under no requested root, and a network that was not asked for, are decided after an approval as before. |
| Permissions.ApprovedTwice | internal/permissions/rules.go:95-116 | Approving the same request again changes nothing. |
| Permissions.CheckWrite | internal/permissions/rules.go:118-143 | The three nested loops decide: some root contains the path, and every protected directory on the way to it is opened by a root inside. |
| Permissions.CanWriteIsDeepestGrant | internal/permissions/rules.go:118-143 | A path is writable exactly when its deepest containing root leaves it unprotected. |
| Permissions.Evaluate | internal/permissions/rules.go:70-91 | Allow, Ask or an error, in the order of the checks. |
| Permissions.ApplyDecision | internal/permissions/rules.go:95-116 | The loop grants the requested roots one by one, each only if not writable yet, and the network if asked for; the rest of the policy stays. |
| Permissions.GrantKeepsAccess | internal/permissions/rules.go:107-112 | A root that is not writable yet can be added without loss, although it brings protected children. |
| Permissions.UnguardedGrantLosesAccess | internal/permissions/rules.go:107-112 | Without the guard access is lost exactly when a protected child of the new root is writable without being a root. |
| Permissions.UnguardedGrantExample | internal/permissions/rules.go:107-112 | With `/a` as the only root `/a/b/.git` is writable; adding the root `/a/b` without the guard would protect it. |
| Permissions.ProtectedChildNeedsGrant | internal/permissions/rules.go:123-141 | A protected child of a root is writable only through a root inside it. |
| Permissions.DenialIsFinal | internal/permissions/rules.go:95-102 | A policy comes out exactly for an approved request with clean paths. |
| Seccomp.SandboxFilter | internal/machine/local/sandbox_linux.go:223-274 | For each supported architecture the emitted bytes decode to a loadable program that decides every call as the rule table does. |
| Seccomp.ProgramMeetsVerdict | internal/machine/local/sandbox_linux.go:234-270 | For every denied list and every call data: running the program gives the verdict of wrong-ABI kill, deny list, stream-only socketpair, family list by network flag, else allow. |
| Seccomp.LowBits | internal/machine/local/sandbox_linux.go:251-256 | The mask of the socket type keeps its last four bits. |
| Seccomp.ProgramLoads | internal/machine/local/sandbox_linux.go:234-270 | All jumps stay inside the program and the last instruction returns. |
| Seccomp.CompileFilter | internal/machine/local/sandbox_linux.go:234-270 | The appending loops build the specified program. |
| Seccomp.EncodeDecodes | internal/machine/local/sandbox_linux.go:271-273 | The little-endian encoding loses nothing. |
| PatchPrinter.ParsePrint | internal/tools/applypatch/parser.go:21-169 | The parser undoes the canonical printer on every list of printable hunks. |
| PatchEnvelope.ParseWrapped | internal/tools/applypatch/parser.go:21-102 | A printed patch is read as it was inside a here-document of the shell, with white space on both sides and with Windows line endings. |
| PatchGrammar.AcceptedExactly | internal/tools/applypatch/parser.go:104-169 | An update is accepted if and only if each of its lines is acceptable where it stands, said from outside the parser; and then each line stands once, in order, on the sides that its sign names, or opens a chunk with its heading. |
| PatchGrammar.AddedExactly | internal/tools/applypatch/parser.go:40-58 | A file is added if and only if there are lines and all have a plus; its contents are those lines, each ended. |
| PatchParser.ParsedSound | internal/tools/applypatch/parser.go:21-169 | In every accepted patch the context positions of each chunk rise strictly on both sides and point at equal lines, and no chunk is empty. |
| PatchParser.ParsePatch | internal/tools/applypatch/parser.go:21-89 | The loop over the lines refines the recursive grammar. |
| PatchParser.ParseUpdate | internal/tools/applypatch/parser.go:104-169 | The loop over one update hunk refines its grammar, errors included. |
| PatchTypes.PushKeepsLinks | internal/tools/applypatch/types.go:20-24 | A pushed context line is linked on both sides. |
| FileUpdate.SeekSequence | internal/tools/applypatch/seek_sequence.go:8-48 | The passes over the file, in order, with the end-of-file anchor. |
| FileUpdate.ExactMatchWins | internal/tools/applypatch/seek_sequence.go:8-48 | An exact occurrence beats any fuzzy one, whatever the normalisers do. |
| PatchMatching.SeekMeans | internal/tools/applypatch/seek_sequence.go:8-48 | The search fails if and only if no pass matches anywhere from its start on, and otherwise answers the first place of the strictest pass that has one. |
| FileUpdate.ComputeReplacements | internal/tools/applypatch/file_update.go:19-81 | The loops compute the specified replacements, or the first error. |
| PatchMatching.ChunkMeans | internal/tools/applypatch/file_update.go:19-76 | One chunk: it fails exactly when its context, or then neither its old lines nor these without a trailing blank line, can be found; otherwise it contributes its replacements where it lands, and the next search begins behind it. |
| PatchMatching.UnsortedMeans | internal/tools/applypatch/file_update.go:19-76 | Either every chunk lands and contributes its part, in order, or the answer is the error of the first that does not. |
| PatchMatching.LandedBlock | internal/tools/applypatch/file_update.go:54-75 | Wherever a chunk lands, strictly or loosely or by the retry, that stretch becomes its new lines, with the context lines as the file has them. |
| FileUpdate.SortedIsOrdered | internal/tools/applypatch/file_update.go:19-81 | For every patch and file the sorted list is in range, sorted and free of overlaps, the retry without a trailing blank line included. |
| FileUpdate.SortIsPartition | internal/tools/applypatch/file_update.go:77-79 | All that sorting ever does is to move insertions at the end of the file behind the rest. |
| PatchMeaning.ExactUpdate | internal/tools/applypatch/file_update.go:19-81 | For exactly matched chunks the file becomes the original with each block replaced and free insertions appended, if and only if the early insertions commute with the lines appended by the last block. |
| PatchMeaning.InsertionsLast | internal/tools/applypatch/file_update.go:19-81 | The plain reading holds whenever no free insertion precedes the last block. |
| PatchMeaning.EarlyInsertionSlipsIn | internal/tools/applypatch/file_update.go:19-81 | A patch for which the plain reading fails. |
| PatchMeaning.DeriveNewContents | internal/tools/applypatch/file_update.go:9-17 | The result is the finished text of the spliced lines, or the matching error, on the one canonical cut of the original. |
| PatchMeaning.FinishedTexts | internal/tools/applypatch/text_file.go:63-89 | The texts of the finished file are the texts with the ranges replaced. |
| PatchMeaning.DerivedLines | internal/tools/applypatch/file_update.go:9-17 | For exactly matched chunks the written contents are those of the finished lines, and these are the expected ones if and only if the early insertions commute with the appended lines. |
| ReadBack.ReadBackExactly | internal/tools/applypatch/text_file.go:19-89 | The contents of lines that all have an ending read back as the same texts if and only if every text is free of line breaks and no bare carriage return is directly followed by an empty line ending in a line feed. |
| ReadBack.CutIntoFewer | internal/tools/applypatch/text_file.go:19-53 | The contents of lines without inner breaks are cut into those very lines or into fewer: reading can join lines, never split one. |
| ReadBack.UpdateReadsBack | internal/tools/applypatch/file_update.go:9-17 | Whatever the patch and however its chunks were matched, the updated file reads back as the finished lines if and only if that condition holds of them. |
| ReadBack.ExpectedReadsBack | internal/tools/applypatch/file_update.go:9-17 | For exactly matched chunks whose insertions commute, it reads back as the expected lines if and only if that condition holds. |
| ReadBack.ReadBackExpected | internal/tools/applypatch/file_update.go:9-17 | In a file with one kind of line ending it reads back as the expected lines, if these hold no line breaks. |
| ReadBack.InsertedLineMerges | internal/tools/applypatch/text_file.go:63-89 | A patch that inserts an empty line behind one ending in a bare carriage return: three lines are written and two are read. |
| ReadBack.DeletionMerges | internal/tools/applypatch/text_file.go:63-89 | A patch that deletes the line between such a line and an empty one: two lines are written and one is read. |
| ReadBack.InsertedLineSplits | internal/tools/applypatch/parser.go:91-102 | A patch line with an inner carriage return: one line is written and two are read. |
| SourceText.CanonicalUnique | internal/tools/applypatch/text_file.go:19-53 | A string has only one cut into lines with their endings. |
| SourceText.SourceFile.constructor | internal/tools/applypatch/text_file.go:19-53 | Parsing gives that cut, whose concatenation is the input, and the first ending as the preferred one. |
| SourceText.SourceFile.ApplyReplacements | internal/tools/applypatch/text_file.go:63-80 | Splicing an ordered list never leaves the file and gives the spliced lines. |
| SourceText.SourceFile.Contents | internal/tools/applypatch/text_file.go:82-89 | Writing concatenates the lines, with missing endings filled in. |
| SourceText.FinishedFileKeeps | internal/tools/applypatch/text_file.go:63-89 | A line outside every replaced range keeps text and ending at its shifted place; only a missing final ending is filled in. |
| SourceText.Reparse | internal/tools/applypatch/text_file.go:19-89 | Parsing undoes writing. |
| LineStats.DiffLineStats | internal/runner/diff_tracker.go:171-204 | Without an early exit the counts are new and old length minus a longest common subsequence; on every exit additions minus deletions is the change in length, and an early exit counts a full replacement and happens only with 1024 cells or more. |
| LineStats.CommonLength | internal/runner/diff_tracker.go:179-201 | The two-row loop computes the table's last cell, or gives up at the deadline. |
| LineStats.CommonIsLongest | internal/runner/diff_tracker.go:179-201 | The table's value is the length of a common subsequence, and none is longer. |
| RunDiff.RunTracksNetDiff | internal/runner/diff_tracker.go:53-119 | After any faithful run the tracker holds precisely the paths whose content differs from the start, with start and current content. |
| RunDiff.LosesExactly | internal/runner/diff_tracker.go:53-144 | What switches the diff off: a change without a path, one with a content that is no text, one whose contents do not fit its operation, and one that does not start from the tracked content. |
| RunDiff.TurnDiffTracker.Apply | internal/runner/diff_tracker.go:53-91 | The loops apply a delta as specified and switch the diff off at the first inconsistency. |
| RunDiff.TurnDiffTracker.Snapshot | internal/runner/diff_tracker.go:94-119 | The list is sorted by path, one line per tracked file, with the right operation and the counts of a longest common subsequence, or of a full replacement where the table has 1024 cells or more. |
| RunDiff.LinesAreChanges | internal/runner/diff_tracker.go:94-154 | Each line of a diff is a well-formed change from what the run found to what it left. |
| RunDiff.LostForever | internal/runner/diff_tracker.go:53-76 | One untrustworthy delta switches the run's diff off for good: an inexact one, a malformed change, or a change whose old content disagrees with the tracked one. |
| RunDiff.ExactRun | internal/runner/diff_tracker.go:53-76 | The diff is there if and only if every delta so far was exact, well formed and in agreement with the tracker. |
| RunDiff.DiffStore.RevertRunDiffFile | internal/runner/diff_store.go:147-242 | The undo of one listed file, guarded by activity, revision and content; a refused one changes nothing, and one whose new diff cannot be stored has put the file back all the same. |
| RunDiff.HalfUndoneStays | internal/runner/diff_store.go:64-106 | When the new diff was not stored: the file holds its start content, its line is still listed, and no further undo of it goes through. |
| RunDiff.RevertIsExact | internal/runner/diff_store.go:197-257 | An undo at the current revision succeeds, puts back that file alone and leaves an exact diff. |
| RunDiff.AnyOrderRestoresStart | internal/runner/diff_store.go:197-257 | Undoing the listed files in any order restores the start of the run, with an exact diff after each step. |
| RunDiff.UndoRespectsLaterEdits | internal/runner/diff_store.go:244-257 | An undo goes through only while the file still holds what the run left there. |
| RunDiff.RevisionGoodForOne | internal/runner/diff_store.go:147-242 | A revision is good for one undo: a second one with the same number is refused. |
| FileCommit.CommitFileChanges | internal/machine/local/agent_files.go:185-213 | An exact answer names what is on the disk: the first completed changes and nothing else; an inexact one leaves only the next change's path in doubt; a creation that fails while writing is never called exact. A batch ends early only where it was stopped, its progress was not shown, the disk failed or the next change does not fit. |
| FileCommit.LastChangeStands | internal/machine/local/agent_files.go:185-213 | After completed changes each changed file holds what the last change to it has written. |
| FileCommit.Files.Change | internal/machine/local/files.go:212-313 | A change is begun only when its expectation is met, and touches only its own path. |
| PathLocks.OneHolderPerKey | internal/machine/local/files.go:35-63 | At most one caller holds a key. |
| PathLocks.GateNeverReplaced | internal/machine/local/files.go:35-63 | While a lock is held or awaited, its gate is the one every newcomer for the key gets. |
| PathLocks.IdleTableIsEmpty | internal/machine/local/files.go:50-57 | Entries go with their last user, and no reference count goes wrong. |
| PathLocks.SomeoneCanStep | internal/machine/local/agent_files.go:65-86 | No deadlock: in every reachable state with a caller in it some caller can step without giving up. |
| PathLocks.RunsEndWithEveryoneOut | internal/machine/local/agent_files.go:65-86 | Once nobody else arrives every run is bounded, and one that cannot go on has let every caller out. |
| PathLocks.HolderWaitsHigher | internal/machine/local/agent_files.go:65-86 | Who holds a gate that another awaits waits, if at all, for a greater key. |
| PathLocks.StepKeeps | internal/machine/local/files.go:35-63 | Each of the lock's steps keeps references equal to users, the table listing exactly the used locks, and gates with their holders. |
| PathLocks.PathLockSet.Reserve | internal/machine/local/files.go:35-48 | The first half of `lockKey`: the key's lock, made if there is none, gains a reference. |
| PathLocks.PathLockSet.Release | internal/machine/local/files.go:50-57 | The lock loses a reference and its entry with the last one. |

## Left out

- Clients (web, Wails, TypeScript), HTTP and JSON-RPC transport, model adapters, OAuth, MCP connections, hook processes, PTYs and sandbox launching: they depend on libraries or the operating system. Of the sandbox file only the filter is modelled.
- JSON and gzip are taken as bijections, SHA-256 as injective, random IDs as fresh names; a failing random source is not modelled.
- I/O failures of the ledger and the task store: a failed save is a refusal without effect. Where a failure does have an effect it is part of the model: `EventStream` (run records, final drafts), `LiveRun.Run.PersistOpenDrafts`, `RunDiff.DiffStore.RevertRunDiffFile`, `DiskDeletion`, `FileCommit`, publishing and `Emit`.
- Windows paths, case folding of names and hashes, and symbolic links: paths are absolute sequences of components.
- The fuzzy normalisers of the patch engine are arbitrary functions behind the identity. For chunks that match loosely or by the retry the meaning is stated block by block (`PatchMatching.LandedBlock`), and for the whole file only when they match exactly (`PatchMeaning.ExactUpdate`).
- The limits of the line statistics by wall clock: the deadline may strike at any step.
- EventStream.Delivery: one run at a time with one subscriber; run diff and usage events carry a number but no content; revert ticks of an idle session and manual compaction runs are not modelled. Deltas are for messages that have been started, as the loop emits them, and no two drafts share an identity. The folding follows the runner's own rules, not those of the TypeScript client.
- Steering.Promises: the head moves only by appending; `Session.Branch` during a run is not modelled.
- DepthLimit.DepthStaysLimited: fresh session IDs are nobody's parent yet.
- StopProtocol.StopsReachEveryRun: a deletion is one step, as it holds the relation lock from its walk to its end; the conclusion allows a run that was over before the stop.
- Cleaning up the cache of confirmed reports after a deletion: the code looks there for the task's ID, and no report goes by a task's ID, so the cache stays as it is (`Notifications.PruningMissesReports`).
- Compact.CompactHistory: the choice when to compact (`manageContext`), and the model's input budget are not part of this model; what a failing one means for subscribers is in `EventStream`.
- ReAct.Run: the ledger's copies of messages carry a run ID and an anchor which the loop's own history does not; the model does not tell them apart. Ledgers left unbalanced by a crashed process are a possible start, about which nothing is claimed.
- ReAct.Request: block numbers of streamed deltas, and usage figures; where one block of text ends and the next begins is not pinned down by `ReAct.Receive`, only what they say together.
- PatchGrammar.AcceptedExactly: which of several errors a refused line gets is stated by `PatchParser.ParseUpdate` only.
- Session creation, titles, archiving, listing and ID collisions between sessions.
- DiskDeletion.AllOrNothing: the name of an intent is drawn at random and taken to be new.
- PathLocks.RunsEndWithEveryoneOut: it assumes no further arrivals; fairness among waiting callers is left to the Go runtime.
- FileCommit.CommitFileChanges: parent directories created on the way and the host's reading of the worker's output are not modelled.
- Archiving and project-level bookkeeping of conversations beyond the deletion's own files.
