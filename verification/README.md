# Verified models of the component, knowledge and runtime services

Each module models one part of the repository that keeps state or computes something that other parts rely
on, and proves what that part promises. Environment steps - agents, Git, the file system, clocks, model calls -
are parameters or nondeterministic events.

| file | what it models |
|---|---|
| `DependencyGraph.dfy`, `Pipeline.dfy`, `PipelineProofs.dfy`, `PipelineOrder.dfy`, `PipelineRun.dfy` | the component research pipeline: a task graph that grows while it runs, with retries, reviews and restarts |
| `Ledger.dfy`, `LedgerStore.dfy` | the annotation ledger: an append-only log replayed into review state, and the operations that append to it |
| `SubmissionLocks.dfy`, `Submission.dfy` | the submission of annotations, interleaved with edits and other submissions |
| `Publication.dfy` | publishing a research record into a formal document across two durable files and crashes |
| `Executors.dfy` | background executors of research records: capacity, stop, forced release, retry, review |
| `GitStreams.dfy` | the streaming readers of Git output, against whole-text specifications |
| `Markdown.dfy`, `Chunks.dfy` | splitting documents into sections and token-bounded chunks without loss |
| `Utf8.dfy`, `BashMirror.dfy` | the bounded head and tail of a command's output beside its full log |
| `ModuleIdentity.dfy`, `ModuleLibrary.dfy` | migrations of business modules, merged views and lasting references |
| `Scheduler.dfy` | the priority scheduler of memory requests with nested reads |
| `Reclaim.dfy` | the plan and the execution of build cache reclamation |
| `Png.dfy` | PNG scanline reconstruction in place |
| `Prelude.dfy` | optional values, outcomes and whitespace |

Where a promise does not hold as one might expect it, the model keeps the code's behaviour, and the condition is exact:

- An update of a formal document whose last history entry has no revision is never written: preparing the save
  fills in the missing revision, after which the histories no longer compare equal (`UndisturbedCompletes`,
  `LegacyDocumentNeverPublishes`).
- A submission refused half-way takes back hand-overs of its selection that someone else made before
  (`RefusalTakesBack`, `RefusalCanTakeBackAnothers`), and leaves those of its own hand-overs standing whose note was
  edited after it was selected: handing over does not compare texts, taking back does (`RefusalLeavesStale`,
  `RefusalCanLeaveAHandOver`).
- An executor that finished without having been stopped is never aborted, so a late callback of it is still heard
  while a newer review of the same record runs (`CallbackHeard`, `FinishedExecutorIsStillHeard`).
- Following `nextLine` does not advance if the window ends before it starts (`ContinuationAdvances`, `ContinuationCanStall`).
- `symbolFound` is containment for every symbol that is not empty; for the empty symbol it is false.
- Shortening a chunk's prefix does not end for a tokenizer that finds every halving too long (`ShorteningEnds`,
  `ShorteningCanGoOn`).
- A request with an integer time that no float can hold is never answered: the reader stops at it, so nothing after
  it is read and the scheduler never ends (`EachAnsweredOnce`, `RequestCanBeLost`, `ReaderStaysLost`).
- A receipt that the store accepts for an annotation its owner already resolved has no effect on replay (`RecordResponse`).
- A reference through an old alias to an asset created later in its target is lost when the target migrates in turn
  (`AliasReferenceLost`, `AliasReferenceStays`, `AliasReferenceIsLost`).

The head of a command's output may end inside a character if a chunk does; only the tail is promised to begin with one.

## Model

| member | source | states |
|---|---|---|
| `DependencyGraph.AcceptsDependencies` | src/componentResearchPipeline.ts:42-50 | the depth-first check over the inventoried modules ends and accepts a module list exactly when no module depends on itself through others |
| `DependencyGraph.DependencyCheck.Visit` | src/componentResearchPipeline.ts:43-49 | one recursive visit either finishes the module and everything below it, leaving the set being visited as it was, or the dependencies contain a cycle |
| `DependencyGraph.DependencyCheck.Enter` | src/componentResearchPipeline.ts:46 | entering a module adds it to those being visited and to the path that led there, and nothing else changes |
| `DependencyGraph.DependencyCheck.Leave` | src/componentResearchPipeline.ts:48 | a module is marked visited after everything it depends on, so the visited modules are always in dependency order |
| `DependencyGraph.LayeredIsAcyclic` | src/componentResearchPipeline.ts:42-50 | an order that lists each module after its dependencies rules out every cycle |
| `DependencyGraph.RevisitIsCycle` | src/componentResearchPipeline.ts:44 | meeting a module that is still being visited exhibits a cycle |
| `PipelineProofs.StepKeepsInv` | src/componentResearchPipeline.ts:80-132 | every start, author's answer, reviewer's answer and restart keeps: ids unique, running tasks the ones in flight and within the limit, whatever runs or is done has all its dependencies done, every done task has all the tasks it adds, a saved unreviewed result passed the checks |
| `PipelineProofs.ExecutionKeepsInv` | src/componentResearchPipeline.ts:80-132 | over any interleaving the invariant holds, tasks keep their identity and done tasks stay done with their result |
| `PipelineProofs.ReachableStates` | src/componentResearchPipeline.ts:73-107 | for every reachable state: unique ids, at most the limit running, done tasks' dependencies and children present and done where required |
| `PipelineProofs.PendingLeadsToReady` | src/componentResearchPipeline.ts:113-125 | with nothing running or failed there is a ready task at or below every pending one, although the synthesis waits for index tasks that do not exist yet |
| `PipelineProofs.StopsOnlyFinishedOrFailed` | src/componentResearchPipeline.ts:115-132 | with nothing in flight: some task can start, or all are done, or some task failed |
| `PipelineProofs.RestartResumes` | src/componentResearchPipeline.ts:27 | after an interruption at any point a restart can start a task unless all are done |
| `PipelineProofs.StepDecreases` | src/componentResearchPipeline.ts:80-107 | every event but a restart lowers a measure made of remaining attempts, phases of the task in flight, and tasks still to be added |
| `PipelineProofs.RunsTerminate` | src/componentResearchPipeline.ts:113-125 | an uninterrupted run takes no more events than the measure of the state it starts in |
| `PipelineProofs.NewRunBound` | src/componentResearchPipeline.ts:35-62 | a new pipeline ends within a fixed number of events, from the limits of 100 modules, 50 paradigms and 3 attempts |
| `PipelineProofs.StepEffect` | src/componentResearchPipeline.ts:81-106 | an event touches one task: only a start costs an attempt, only the third failed attempt makes it failed |
| `PipelineProofs.AuthorEffect` | src/componentResearchPipeline.ts:85-93 | what an author's answer leaves: the result saved for review, or no result and the reason as feedback for the next attempt or the final failure |
| `PipelineProofs.VerdictEffect` | src/componentResearchPipeline.ts:95-106 | what a review leaves: feedback discards the result and is kept, a review that throws keeps the result, and without feedback the task is done with the reviewed result unless an id was taken |
| `PipelineOrder.EachPhaseWaits` | src/componentResearchPipeline.ts:35-62 | in every reachable state a synthesis that runs or is done has a done index for every component the inventory found, an index its done pitfalls, those a done paradigm for each that the plan asked for, a paradigm its done contracts, contracts their done plan, a plan the done inventory |
| `PipelineOrder.FoundOnce` | src/componentResearchPipeline.ts:35-62 | in every reachable state the inventory's components, and each component's planned paradigms, are unambiguous |
| `PipelineOrder.CompletedResearch` | src/componentResearchPipeline.ts:127-133 | when every task is done, the synthesis is written and every component found has its plan, contracts, every planned paradigm, pitfalls and index done |
| `PipelineOrder.NothingElse` | src/componentResearchPipeline.ts:35-62 | every task of a reachable list is the inventory, a plan of a found component, the synthesis, or what a done plan asks for, and no two have the same purpose |
| `PipelineOrder.RefusedForCycles` | src/componentResearchPipeline.ts:42-50 | an inventory that is otherwise sound is refused for cycles exactly if some components list one another in a circle |
| `PipelineOrder.ResearchCanComplete` | src/componentResearchPipeline.ts:66-134 | a concrete run of one component with one paradigm in which all seven tasks are done |
| `PipelineProofs.SavedResultSurvives` | src/componentResearchPipeline.ts:85-103 | a checked result saved before review is lost only to the review's feedback or to an id taken meanwhile, never to a failing review or a restart |
| `PipelineRun.ComponentResearchPipeline.constructor` | src/componentResearchPipeline.ts:21-29 | opening a stored list makes interrupted and failed tasks pending again with no attempts used, keeps the rest, and stores the result |
| `PipelineRun.ComponentResearchPipeline.CheckInventory` | src/componentResearchPipeline.ts:34-50 | the inventory's checks in the order they are made, each with the error it leads to |
| `PipelineRun.ComponentResearchPipeline.ExpandResult` | src/componentResearchPipeline.ts:31-65 | what accepting a result adds to the list, or why it is refused |
| `PipelineRun.ComponentResearchPipeline.Available` | src/componentResearchPipeline.ts:73-79 | additions are available exactly when no id repeats one in the list or an earlier addition |
| `PipelineRun.ComponentResearchPipeline.Begin` | src/componentResearchPipeline.ts:81-82 | starting a task marks it running and counts the attempt, in memory and on disk |
| `PipelineRun.ComponentResearchPipeline.Deliver` | src/componentResearchPipeline.ts:87-91 | an author's answer is checked and saved before review, or the attempt fails |
| `PipelineRun.ComponentResearchPipeline.Conclude` | src/componentResearchPipeline.ts:94-106 | a passed review commits the task and its additions in one durable write; anything else fails the attempt |
| `PipelineRun.ComponentResearchPipeline.ReadyTasks` | src/componentResearchPipeline.ts:115-116 | exactly the pending tasks all of whose dependencies are done, in list order |
| `PipelineRun.ComponentResearchPipeline.Launch` | src/componentResearchPipeline.ts:117-122 | starts ready tasks in order up to the limit, each a step of the model |
| `PipelineRun.ComponentResearchPipeline.Cycle` | src/componentResearchPipeline.ts:113-125 | one turn of the loop is a run of the model, and without progress nothing runs and nothing is ready |
| `PipelineRun.ComponentResearchPipeline.Run` | src/componentResearchPipeline.ts:66-134 | the main loop ends for all answers in any order, refuses a bad concurrency untouched, completes only with all tasks done, and otherwise leaves some failed task and nothing ready, or was aborted |
| `AnnotationLedger.EffectKeepsReceipts` | src/annotations.ts:312-506 | one operation keeps a stored receipt and a stored resolution on the current revision |
| `AnnotationLedger.ReceiptsCarryCurrentRevision` | src/annotations.ts:399-409 | for every log that adds each id once and bare, a stored receipt or resolution carries the current revision |
| `AnnotationLedger.EffectFreezesText` | src/annotations.ts:353-503 | one operation never lowers the revision, and without raising it leaves committed text as it is and committed |
| `AnnotationLedger.CommittedTextIsFinal` | src/annotations.ts:302-511 | between any two points of a log at which a revision is the same, text that was committed under it has not changed |
| `AnnotationLedger.SameRevisionSameText` | src/annotations.ts:353-409 | two receipts ever accepted for an annotation under one revision answer the same text |
| `AnnotationLedger.InPlaceEdits` | src/annotations.ts:353-386 | a note changes without a new revision exactly where an edit meets text that was never committed |
| `AnnotationLedger.ReplayAppends` | src/annotations.ts:302-312 | appending an operation to the log applies it to what the log replays to |
| `AnnotationLedger.RevisionCounts` | src/annotations.ts:353-503 | the revision counts edits of committed text, reopenings and resets, the rounds count reopenings, and the note changes only by an edit or with a reopening that brings one |
| `AnnotationLedger.AuthorStays` | src/annotations.ts:353-503 | no operation changes id, author, assignee or origin, and the last edit and the last reopening are remembered |
| `AnnotationLedger.StatusAfter` | src/annotations.ts:312-503 | the status after any operation: draft with a new revision or a hand-over, verified by a confirmation or an owner's decision on the current revision, dropped, sent by a delivery, and otherwise as before |
| `AnnotationLedger.DeliveryAfter` | src/annotations.ts:387-424 | when, how and by whom an annotation was sent is what its last delivery says, until the next revision |
| `AnnotationLedger.ReceiptAfter` | src/annotations.ts:399-476 | a receipt of the current revision stands until it is replaced, answered, replied to, or the next revision begins; so does the owner's reply until another |
| `AnnotationLedger.ClosureAfter` | src/annotations.ts:329-352 | who confirmed, resolved or asked to withdraw a revision stands until the next one; the need for the owner's closure is set and cleared by the operations that say so |
| `AnnotationLedger.HandOverAfter` | src/annotations.ts:312-339 | an annotation is the agent's from a hand-over or a delivery to it until a reopening or a reset, and its context lasts for the round |
| `AnnotationLedger.DialogueGrows` | src/annotations.ts:364-476 | a question answered or edited away is kept with time, answer and answerer, a reply with the receipt it replies to, and nothing kept is changed |
| `AnnotationLedger.DialogueIsKept` | src/annotations.ts:302-511 | over a whole log questions, answers and replies are only added to |
| `AnnotationLedgerStore.Amend` | src/annotations.ts:312-506 | the record updated field by field equals the effect of the operation |
| `AnnotationLedgerStore.MarkAll` | src/annotations.ts:387-398 | one operation over a list of ids, repeats included, marks each of them once |
| `AnnotationLedgerStore.ReplayLog` | src/annotations.ts:302-511 | the replay loop computes the fold of the operations |
| `AnnotationLedgerStore.ShownIsStored` | src/annotations.ts:506-511 | what is shown differs from what is stored only in the owner's closure, for reworked drafts of an owner-controlled ledger that say nothing about it |
| `AnnotationLedgerStore.AttachedAreNamed` | src/annotations.ts:553-563 | the pictures of a note are those named, trimmed |
| `AnnotationLedgerStore.AttachedAreCounted` | src/annotations.ts:553-563 | as many pictures are attached as are named |
| `AnnotationLedgerStore.AnnotationStore.AddNote` | src/annotations.ts:538-599 | a note is refused exactly when required parts are blank or its pictures are not uploaded ones or too many; otherwise one record appears, a draft or a closed private memory |
| `AnnotationLedgerStore.AnnotationStore.EditNote` | src/annotations.ts:618-633 | an edit by the author or owner trims and stores the note; committed text becomes a draft of the next revision without answers |
| `AnnotationLedgerStore.AnnotationStore.MarkSentFor` | src/annotations.ts:640-651 | exactly the snapshotted annotations whose text and revision are still current become sent; no other record changes |
| `AnnotationLedgerStore.AnnotationStore.ResetUnsentAssignments` | src/annotations.ts:660-669 | exactly the snapshotted hand-overs with unchanged text and no delivery become drafts of a later revision, one further for each time the snapshot names them; no other record changes |
| `AnnotationLedgerStore.AnnotationStore.RecordResponse` | src/annotations.ts:670-707 | which receipts are refused, and that an accepted one is stored on the current revision or, for a resolved annotation, changes nothing |
| `AnnotationLedgerStore.AnnotationStore.ResolveAsOwner` | src/annotations.ts:807-831 | an owner's decision takes effect on the current revision or is refused without a trace |
| `AnnotationLedgerStore.AnnotationStore.AssignToAgent` | src/annotations.ts:840-846 | when a hand-over is allowed, and that it commits the text and waits for delivery |
| `AnnotationLedgerStore.AnnotationStore.ReopenNote` | src/annotations.ts:882-897 | reopening starts the next revision with nothing answered, for its author or the owner only |
| `SubmissionLocks.AcquireKeepsLocks` | src/annotationSubmission.ts:51-54 | taking ids keeps the table equal to what is in flight, with disjoint holders per ledger |
| `SubmissionLocks.ReleaseKeepsLocks` | src/annotationSubmission.ts:67-68 | giving ids back keeps it so, and drops a set that became empty |
| `SubmissionLocks.TableEmptied` | src/annotationSubmission.ts:67-68 | with nothing in flight the table is empty |
| `AnnotationSubmission.StepKeepsInv` | src/annotationSubmission.ts:48-70 | every step of any number of submissions, deliveries, ledger operations and other hand-overs keeps the lock table exact, and everything handed over of a selection under the selected revision handed over by its own submission |
| `AnnotationSubmission.OrdinaryIsElsewhere` | src/annotations.ts:302-511 | no ledger operation but a hand-over lowers a revision or leaves an annotation handed over that was not, under the same revision |
| `AnnotationSubmission.HandsOverIsElsewhere` | src/taskService.ts:10774-10778 | other callers hand over and record the delivery in one step, which opens no hand-over under the same revision either |
| `AnnotationLedgerStore.WaitingIsUnresolved` | src/annotations.ts:329-339 | an annotation that waits for a hand-over carries no resolution, in every log that hands over only what waits for it |
| `AnnotationLedgerStore.ClosedStaysClosed` | src/annotations.ts:302-511 | an annotation that does not wait for a hand-over waits for one again only under a later revision, in every log that hands over only what waits for it and records deliveries as such |
| `AnnotationSubmission.SelectionFromLog` | src/annotationSubmission.ts:48-60 | a selection read earlier from the same log is of no later revision, and nothing closed in it is open again under the same one |
| `AnnotationSubmission.EachHandedOver` | src/annotationSubmission.ts:56-60 | a submission that was not refused has handed over everything it selected that waited for it |
| `AnnotationSubmission.SubmissionBegins` | src/annotationSubmission.ts:48-62 | a submission begins exactly if its context is short, nothing of it is being submitted, and what waited when selected still waits; then just that is handed over with the context, and the snapshot is the ledger's state of the whole selection |
| `AnnotationSubmission.SubmissionsApart` | src/annotationSubmission.ts:44-70 | beginning or ending a submission leaves the others, and the ledgers of other paths, alone |
| `AnnotationSubmission.LocksOverRuns` | src/annotationSubmission.ts:44-70 | over every run the ids in flight for a ledger are disjoint, and the table is empty once nothing is in flight |
| `AnnotationSubmission.DeliveryMarksItsSnapshot` | src/annotations.ts:640-651 | a delivery is recorded only for the text and revision that were snapshotted before the wait |
| `AnnotationSubmission.DeliveryMarksExactly` | src/annotations.ts:640-651 | a delivery marks exactly those of its batch whose text and revision are current and which are neither resolved, verified nor dropped |
| `AnnotationSubmission.FailureTakesBackItsOwn` | src/annotationSubmission.ts:63-65 | a failed delivery takes back exactly the open hand-overs of its selection with unchanged text, and all of these are its own |
| `AnnotationSubmission.RefusalTakesBack` | src/annotationSubmission.ts:56-65 | of what it did not hand over itself, a selection refused half-way takes back exactly what was open under the selected text |
| `AnnotationSubmission.RefusalLeavesStale` | src/annotationSubmission.ts:56-65 | of what it did hand over, a refused selection leaves exactly that handed over whose text is not the selected one |
| `AnnotationSubmission.RefusalCanLeaveAHandOver` | src/annotationSubmission.ts:56-65 | a concrete stale selection whose first annotation stays handed over after the refusal |
| `AnnotationSubmission.RefusalCanTakeBackAnothers` | src/annotationSubmission.ts:56-65 | a concrete selection for which a refusal takes back a hand-over that was made before by someone else |
| `AnnotationSubmission.SubmissionDesk.BeginSubmission` | src/annotationSubmission.ts:50-62 | locking, handing over and snapshotting in one piece, or a refusal that leaves no lock |
| `AnnotationSubmission.SubmissionDesk.EndSubmission` | src/annotationSubmission.ts:62-69 | delivered or failed, the ids are free again and failure resets what is still open |
| `KnowledgePublication.PrepareFacts` | src/knowledgeDocuments.ts:208-257 | a prepared save keeps the base's id and names its revision, and appends one history entry unless nothing changes |
| `KnowledgePublication.StepKeepsInv` | src/componentResearch.ts:822-913 | publish, recover, crashes between any two writes, other saves, restores and deletions keep the publication invariant |
| `KnowledgePublication.WritesOnlyUntouched` | src/componentResearch.ts:898-913 | the formal document is written only while it is exactly the one the intent was prepared from, never after a later edit or a restore of the same revision |
| `KnowledgePublication.CommitsOnlyPublished` | src/componentResearch.ts:898-913 | the record is committed only when the formal document holds the accepted revision |
| `KnowledgePublication.AtMostOnce` | src/componentResearch.ts:882-913 | over every run an intent writes the formal document at most once, and never over later edits |
| `KnowledgePublication.CrashWindowInvisible` | src/componentResearch.ts:369-381 | dying between the document's write and the record's is invisible to readers: they see the accepted text at once, as after an undisturbed publication |
| `KnowledgePublication.ShownWasHeld` | src/componentResearch.ts:369-381 | over every run of publishes, crashes, recoveries, edits, restores and deletions readers are never shown a published revision that the formal document shown with it never held |
| `KnowledgePublication.RecoveryCompletes` | src/componentResearch.ts:882-891 | dying between the two writes and recovering ends where an undisturbed publication ends |
| `KnowledgePublication.UndisturbedCompletes` | src/componentResearch.ts:898-913 | an undisturbed intent completes exactly when it is a new document, an unchanged one, or an update of a document whose history is not the legacy form |
| `KnowledgePublication.PublishedTextIsShown` | src/componentResearch.ts:862-881 | a publication nothing stands in the way of leaves the record with exactly the published text under the revision its formal document then holds, and readers see that text as soon as the document is written |
| `KnowledgePublication.HistoryGrows` | src/componentResearch.ts:867-881 | it appends one entry under its revision to the history it found, changes no other document, and writes nothing for the same revision |
| `KnowledgePublication.PendingIsFinished` | src/componentResearch.ts:829 | while an intent is pending, publishing again only finishes it |
| `KnowledgePublication.StaleIsRefused` | src/componentResearch.ts:859-862 | a publication changes nothing if the document was saved since, is gone, or the record is removed, and leaves the document alone if its save cannot be verified |
| `KnowledgePublication.RemovedStays` | src/componentResearch.ts:664-669 | a removed record is shown as removed, and neither publishing, recovering nor updating changes anything |
| `KnowledgePublication.OthersSave` | src/knowledgeDocuments.ts:208-257 | anyone else's save appends an entry that carries its revision and touches nothing else |
| `KnowledgePublication.UpdateBinds` | src/componentResearch.ts:780-803 | beginning an update keeps what readers see, binds the record to the document as it is now, and allows a publication |
| `KnowledgePublication.LegacyDocumentNeverPublishes` | src/componentResearch.ts:898-913 | a concrete document without a revision in its last history entry whose update is not written, at once or by any later attempt |
| `KnowledgePublication.ComponentPublisher.WritePrepared` | src/knowledgeDocuments.ts:258-278 | the document is replaced only if the prepared save is still what a new preparation gives, and otherwise left alone |
| `KnowledgePublication.ComponentPublisher.PublishRecord` | src/componentResearch.ts:822-881 | finishes a pending intent, or stores a new one and finishes that, up to the write after which the process dies |
| `KnowledgePublication.ComponentPublisher.FinishPublication` | src/componentResearch.ts:898-913 | decides between writing, committing only, and giving up, and performs the writes in that order |
| `KnowledgePublication.ComponentPublisher.RecoverPublication` | src/componentResearch.ts:882-891 | an intent that is found is finished, whatever happened to it before |
| `KnowledgePublication.StartAfter` | src/componentResearch.ts:882-891 | a new process that opens what a dead one stored ends where recovering would have |
| `ResearchExecutors.StepKeepsInv` | src/componentResearch.ts:499-735 | every start, callback, return, final release, stop, timer, removal, review, retry and shutdown keeps slots, executors, timers and record states consistent |
| `ResearchExecutors.OneExecutorPerRecord` | src/componentResearch.ts:499-625 | over every run no record has two executors at work, no more run than the limit, and a record is running exactly while one works for it |
| `ResearchExecutors.AbortedForGood` | src/componentResearch.ts:626-652 | an aborted executor stays aborted whatever follows |
| `ResearchExecutors.AbortedExecutorIsHarmless` | src/componentResearch.ts:527-622 | callbacks, return and final release of an aborted executor change no record and free no slot of a newer run |
| `ResearchExecutors.TimerSparesNewerRuns` | src/componentResearch.ts:653-663 | the forced release ends only the run it was set for |
| `ResearchExecutors.FinalReleaseFrees` | src/componentResearch.ts:614-620 | what follows an executor's work frees the slot and stops the timer of its own run and changes nothing for any other |
| `ResearchExecutors.StopCancels` | src/componentResearch.ts:653-663 | a stop cancels a waiting or running record with its live turns, aborts its run and arms the timer, and changes nothing else |
| `ResearchExecutors.TimeoutReleases` | src/componentResearch.ts:626-652 | a timer is spent when it fires, and a run that still holds its slot loses it and fails with its turn |
| `ResearchExecutors.RemovalHides` | src/componentResearch.ts:664-669 | removing stops a record and marks it deleted, once |
| `ResearchExecutors.ReviewQueues` | src/componentResearch.ts:711-731 | a review is queued behind the other turns exactly for a record with a document that is not removed, published or busy |
| `ResearchExecutors.RetryQueues` | src/componentResearch.ts:682-698 | a retry queues the last turn once more if that failed or was stopped, and otherwise the research, of a record that is not removed, published or busy |
| `ResearchExecutors.ShutdownQueues` | src/componentResearch.ts:918-928 | a shutdown leaves what waits or runs, with its turns, for the next start and every other record as it is |
| `ResearchExecutors.ShutdownAborts` | src/componentResearch.ts:929-932 | a shutdown aborts every run and leaves each to a timer |
| `ResearchExecutors.PumpStartsInTurn` | src/componentResearch.ts:499-519 | a pass starts queued records that are not deleted in the order of their creation until the capacity is used up, each with its first queued turn, and changes nothing else |
| `ResearchExecutors.StoppedRunIsReleased` | src/componentResearch.ts:626-663 | after a stop the slot is free at the latest when the timer fires, and a retry is then possible |
| `ResearchExecutors.CallbackHeard` | src/componentResearch.ts:527-550 | a callback changes the record exactly when its executor is not aborted and the record is neither stopped nor deleted |
| `ResearchExecutors.ReturnRecorded` | src/componentResearch.ts:551-612 | unless it was stopped, a run that returned makes its record and review turn done and one that threw makes them failed, with the content it left; other turns and records stay, and after a stop everything does |
| `ResearchExecutors.FailedReviewIsRepeated` | src/componentResearch.ts:601-612 | over every run a review turn whose executor threw is the failed last turn, and a retry after the release queues the same request as a new turn that the next start works on |
| `ResearchExecutors.FinishedExecutorIsStillHeard` | src/componentResearch.ts:527-550 | a concrete run in which a finished, never aborted executor still changes the record during a newer review |
| `ResearchExecutors.OneRunEnds` | src/componentResearch.ts:499-622 | the run before it: one research created, started, returned and released |
| `ResearchExecutors.ComponentResearchManager.PumpQueue` | src/componentResearch.ts:499-519 | starts queued records in order of creation while capacity lasts |
| `ResearchExecutors.ComponentResearchManager.CreateRecord` | src/componentResearch.ts:450-474 | a new record is queued behind the others |
| `ResearchExecutors.ComponentResearchManager.RemoveRecord` | src/componentResearch.ts:664-669 | a removed record is stopped and then marked deleted |
| `ResearchExecutors.ComponentResearchManager.ShutDown` | src/componentResearch.ts:918-934 | live records are queued for the next start and every run is aborted |
| `ResearchExecutors.ComponentResearchManager.WorkEnded` | src/componentResearch.ts:551-622 | what a returned or failed execution leaves behind, unless it was stopped |
| `ResearchExecutors.ComponentResearchManager.StopRecord` | src/componentResearch.ts:626-663 | a stop ends the record's live turns, aborts its run and arms the release timer |
| `ResearchExecutors.ComponentResearchManager.RetryRecord` | src/componentResearch.ts:682-698 | a retry repeats a failed or stopped review turn if its request is still valid, and otherwise queues the research again |
| `ResearchExecutors.ComponentResearchManager.ReviewRecord` | src/componentResearch.ts:711-731 | a review is accepted exactly if its request is valid and the record has a document, is not published or being published, and is not busy |
| `GitStreams.SplitIsLossless` | src/componentResearchTools.ts:132-141 | splitting a text at a separator and joining gives the text back, and no part holds the separator |
| `GitStreams.FoundAcross` | src/componentResearchTools.ts:127-130 | keeping the last characters of what was seen is enough to find the symbol across chunk borders |
| `GitStreams.BlobPager.Consume` | src/componentResearchTools.ts:126-142 | after any chunk the pager's fields are those the text so far determines |
| `GitStreams.ReadGitBlobPage` | src/componentResearchTools.ts:114-145 | for every way the stream is cut the page is the one of the whole text: greedy lines under the budget, total, continuation and symbol |
| `GitStreams.GreedyIsMaximal` | src/componentResearchTools.ts:119-125 | a page takes the longest run of whole lines from its start that its window and budget allow |
| `GitStreams.PageContents` | src/componentResearchTools.ts:119-145 | the page in terms of the text alone: which lines, how many in all, where to go on, whether the text contains the symbol |
| `GitStreams.ContinuationAdvances` | src/componentResearchTools.ts:144 | the continuation lies behind the start exactly when the window is not empty and the first line fits |
| `GitStreams.ContinuationCanStall` | src/componentResearchTools.ts:144 | a concrete text of two lines whose second line continues at itself for a window that ends before it starts |
| `GitStreams.FollowVisitsInOrder` | src/componentResearchTools.ts:280-285 | following the continuations visits every further line once and in order, or stops with an empty page at a line that alone exceeds the budget |
| `GitStreams.PathLister.Consume` | src/componentResearchTools.ts:82-96 | after any chunk the list, or its failure, is that of the output so far |
| `GitStreams.ListGitTreePaths` | src/componentResearchTools.ts:79-99 | for every way the output is cut the list or the reason for refusing it is that of the whole output |
| `GitStreams.WholeListIsTheSplit` | src/componentResearchTools.ts:83-98 | the list is returned exactly when the output is terminated and within all limits, and then it is the non-empty parts of the output |
| `GitStreams.RefusedBecause` | src/componentResearchTools.ts:87-97 | which reason a refused list has: the first overlong path reached within the limits, an unterminated rest after everything else was in order, or else its size |
| `GitStreams.ListingGivesBack` | src/componentResearchTools.ts:79-99 | any non-empty paths within the limits, written with their terminators, are listed as they are and in order |
| `GitStreams.LengthIsCounted` | src/componentResearchTools.ts:91-93 | the size of a list is its characters without the terminators |
| `GitStreams.DigitsSuffice` | src/componentResearchTools.ts:121 | a line number costs the fewest decimal digits that hold it |
| `MarkdownSections.SplitMarkdown` | harness/knowledge_chunks.py:20-104 | the recursion ends and covers everything after the front matter by sections whose headings enclose them |
| `MarkdownSections.EachLineOnce` | harness/knowledge_chunks.py:61-64 | sections are in line order without overlap, hold their lines unchanged, and hold every non-blank line exactly once |
| `MarkdownSections.Divide` | harness/knowledge_chunks.py:66-92 | a range is covered by its introduction and its topics, or by paragraphs, with the level strictly rising |
| `MarkdownSections.Topic` | harness/knowledge_chunks.py:94-101 | a topic is kept whole or divided below its own level, and covered either way |
| `MarkdownSections.CutParagraphs` | harness/knowledge_chunks.py:73-81 | text without headings is covered by pieces cut at allowed places after the budget is met |
| `MarkdownSections.Emit` | harness/knowledge_chunks.py:61-64 | a section holds exactly its lines, and only blank lines are dropped |
| `MarkdownSections.JoinedLines` | harness/knowledge_chunks.py:61-64 | the content of a section is its lines with a newline between each two |
| `MarkdownSections.TrailGrows` | harness/knowledge_chunks.py:61-64 | the heading of a section is the titles of its path, each shown behind the one above |
| `MarkdownSections.FrontMatterEnd` | harness/knowledge_chunks.py:24-29 | the front matter ends at the first closing line, and there is none without one |
| `BoundedChunks.BoundedSection` | harness/memory_embedding.py:79-108 | for any tokenizer the section is tiled in order by chunks within the limit, each as long as the search and the newlines allow and with true lines, or the search fails exactly at a character that does not fit alone |
| `BoundedChunks.ChunksAreLossless` | harness/memory_embedding.py:79-108 | without the prefix the chunks concatenate to the section, and none exceeds the limit |
| `BoundedChunks.LineIsTheSourceLine` | harness/memory_embedding.py:103-107 | the line computed for a character is the source line it stands on |
| `BoundedChunks.FittingLength` | harness/memory_embedding.py:84-92 | the binary search returns a length that was tried and fits while one character more does not, or nothing if one character alone does not fit, for a tokenizer that need not be monotone |
| `BoundedChunks.LongestIsMaximal` | harness/memory_embedding.py:84-92 | for a tokenizer that counts no fewer tokens for longer texts no longer piece would have fitted |
| `BoundedChunks.PieceEnd` | harness/memory_embedding.py:93-102 | a piece ends behind the last newline of the tried length, or at that length if the text ends there or the shorter piece has more tokens than allowed |
| `BoundedChunks.ShortenPrefix` | harness/memory_embedding.py:76-78 | the prefix is halved until it first fits its share of the limit, and is then an initial part of it |
| `BoundedChunks.ShorteningEnds` | harness/memory_embedding.py:77-78 | the shortening ends exactly if one of finitely many halvings fits |
| `BoundedChunks.HalvedIs` | harness/memory_embedding.py:77-78 | halving k times leaves the first part of the prefix, as long as its length divided by two to the k |
| `BoundedChunks.ShorteningCanGoOn` | harness/memory_embedding.py:77-78 | a concrete tokenizer for which it never ends |
| `BoundedChunks.BoundedSections` | harness/memory_embedding.py:72-108 | all sections in order, each with a shortened prefix of its own, are tiled by chunks within the limit, or the first that cannot be is cut up to the character that does not fit alone |
| `Utf8.BoundaryAt` | src/bashOutputMirror.ts:110-115 | in well-formed bytes a character begins wherever no continuation byte stands |
| `Utf8.ContinuationsAreShort` | src/bashOutputMirror.ts:110-115 | well-formed bytes have no four continuation bytes in a row |
| `Utf8.EncodingIsText` | src/bashOutputMirror.ts:110-115 | code points encoded by section 3 of RFC 3629 and written one behind the other are well formed, each ending where the next begins |
| `BashOutputMirror.PrefixWithinBudget` | src/bashOutputMirror.ts:117-134 | the prefix keeps both budgets, is everything exactly if everything fits, and otherwise ends where the budget does but for continuation bytes |
| `BashOutputMirror.InHeadExactly` | src/bashOutputMirror.ts:117-134 | a prefix is within the head exactly if it has at most 8192 bytes and fewer than 200 newlines before its last byte |
| `BashOutputMirror.HeadBounds` | src/bashOutputMirror.ts:331-349 | the head keeps within 8 KiB and 200 newlines, and for well-formed output misses at most three bytes of what they allow |
| `BashOutputMirror.ShownPrefix` | src/bashOutputMirror.ts:331-349 | what is shown of a chunk under the remaining budgets makes the head of the whole output so far |
| `BashOutputMirror.HeadStays` | src/bashOutputMirror.ts:327-330 | a head once cut is the head of every longer output |
| `BashOutputMirror.RollingTail.Append` | src/bashOutputMirror.ts:140-155 | the window becomes the last 32 KiB of the window before and the new data |
| `BashOutputMirror.WindowMoves` | src/bashOutputMirror.ts:140-155 | windows over successive chunks agree with the window over their concatenation |
| `BashOutputMirror.RollingTail.Content` | src/bashOutputMirror.ts:157-171 | what is shown is the window without a cut character at its start and with at most 800 newlines, starting at a line if lines were dropped |
| `BashOutputMirror.TailIsWholeCharacters` | src/bashOutputMirror.ts:157-171 | for well-formed output the tail is a suffix that begins with a character, has at most 800 newlines, and unless it has 800 misses at most three bytes of the window |
| `BashOutputMirror.OutputMirror.WriteAll` | src/bashOutputMirror.ts:179-186 | the log grows by the chunk however little is written at a time, or by an initial part of it and a failure |
| `BashOutputMirror.OutputMirror.OnData` | src/bashOutputMirror.ts:318-352 | after every chunk log, head and tail are those of the whole output, and what the reader took is an initial part of the preview |
| `BashOutputMirror.OutputMirror.Finish` | src/bashOutputMirror.ts:366-400 | a command counts as returned only with a complete log and the whole preview, tail and path taken by the reader, and does so if nothing failed |
| `ModuleIdentity.Resolve` | src/businessModuleIdentity.ts:35-45 | the loop with its seen set ends, finds where an id resolves if anywhere, and reports a cycle exactly otherwise |
| `ModuleIdentity.CheckRecords` | src/businessModuleIdentity.ts:24-32 | records are accepted exactly if no source repeats, none moves onto itself and every chain ends |
| `ModuleIdentity.ResolutionIsTotal` | src/businessModuleIdentity.ts:35-45 | with valid records every id resolves |
| `ModuleIdentity.ResolutionIsIdempotent` | src/businessModuleIdentity.ts:35-45 | where an id resolves nothing moves on, so resolving again changes nothing |
| `ModuleIdentity.CycleNeverEnds` | src/businessModuleIdentity.ts:38-39 | an id that leads back to itself resolves to nothing in any number of steps |
| `ModuleIdentity.MigrationRedirects` | src/businessModuleIdentity.ts:62-67 | a migration redirects exactly what resolved to its source to its target, and the records stay valid |
| `ModuleIdentity.MigrationRecords.Commit` | src/businessModuleIdentity.ts:62-67 | commits exactly a migration between two different modules still in place |
| `ModuleLibrary.MigratedIdsDiffer` | src/businessModuleLibrary.ts:404-406 | for an injective digest no two assets share a migrated id, as module ids have no colon |
| `ModuleLibrary.EachAssetShownOnce` | src/businessModuleLibrary.ts:411-418 | every stored asset is shown by exactly one live module under exactly one id, and no id shows two assets |
| `ModuleLibrary.DoKeeps` | src/businessModuleLibrary.ts:435-458 | creating, updating, publishing, archiving and migrating keep the invariant, take back no asset or version, and add an asset only under an id that denoted nothing |
| `ModuleLibrary.ReferencesLast` | src/businessModuleLibrary.ts:419-433 | a reference denotes the same stored asset after any later events, and a published version keeps its content |
| `ModuleLibrary.ShownReferencesLast` | src/businessModuleLibrary.ts:419-433 | in particular a reference taken from what a live module shows |
| `ModuleLibrary.AliasReferenceLost` | src/businessModuleLibrary.ts:428 | a reference through an old alias to an asset of its present target is lost when that target migrates, unless the id is its own migrated id |
| `ModuleLibrary.AliasReferenceStays` | src/businessModuleLibrary.ts:419-433 | no other event moves such a reference |
| `ModuleLibrary.AliasReferenceIsLost` | src/businessModuleLibrary.ts:419-433 | a concrete library of three modules in which such a reference is lost |
| `ModuleLibrary.PublishedIs` | src/businessModuleLibrary.ts:707-757 | publishing makes the next version of one asset and touches no other |
| `ModuleLibrary.PublishKeepsDocuments` | src/businessModuleLibrary.ts:722-744 | the documents are exactly those of the versions published, so the next version's file is never there already |
| `ModuleLibrary.PublishedStores` | src/businessModuleLibrary.ts:723-752 | publishing stores the text as the next version of one asset, which is then not archived; every other document and asset stays as it was |
| `ModuleLibrary.AssetsStayWithin` | src/businessModuleLibrary.ts:687-690 | no module ever has more than 60 assets |
| `ModuleLibrary.PublishedTextLasts` | src/businessModuleLibrary.ts:767-826 | the published text is what is read through the reference it was published by, and as that version after any later events through its module and every reference that names it |
| `ModuleLibrary.ArchivedOne` | src/businessModuleLibrary.ts:827-856 | archiving marks one asset and changes no version, document or other asset |
| `ModuleLibrary.LocateStored` | src/businessModuleLibrary.ts:419-429 | an asset is published anew only in a live module and under an id that denotes nothing there |
| `ModuleLibrary.BusinessModuleLibrary.ModuleSources` | src/businessModuleLibrary.ts:407-410 | the modules that resolve to a target, each once |
| `ModuleLibrary.BusinessModuleLibrary.ReadModule` | src/businessModuleLibrary.ts:411-418 | the view lists exactly what the module shows, each id once |
| `ModuleLibrary.BusinessModuleLibrary.AssetLocation` | src/businessModuleLibrary.ts:419-429 | own assets first, then migrated ones, then the present module: what the reference denotes |
| `ModuleLibrary.BusinessModuleLibrary.CreateModule` | src/businessModuleLibrary.ts:489-538 | creates exactly a module with a valid id that is not there yet |
| `ModuleLibrary.BusinessModuleLibrary.UpdateModule` | src/businessModuleLibrary.ts:558-596 | updates exactly a stored module that has not been migrated |
| `ModuleLibrary.BusinessModuleLibrary.PublishAsset` | src/businessModuleLibrary.ts:663-765 | stores the text as the next version of what the reference denotes and changes nothing else, or refuses without a trace |
| `ModuleLibrary.BusinessModuleLibrary.ArchiveAsset` | src/businessModuleLibrary.ts:827-856 | archives what the reference denotes and keeps its versions |
| `ModuleLibrary.BusinessModuleLibrary.MigrateModule` | src/businessModuleLibrary.ts:435-458 | migrates by one record exactly when source and target are live and different, the target is active and no id collides |
| `RequestScheduler.StepKeepsInv` | harness/memory_runtime.py:100-193 | every step keeps the queue ordered, each request in one place, one background ingest per path, at most eight reads per checkpoint and the current request the innermost |
| `RequestScheduler.EachAnsweredOnce` | harness/memory_runtime.py:100-183 | once nothing is queued or executing, every request that was read has had exactly one reply, except exactly the one with a time no float can hold |
| `RequestScheduler.RequestCanBeLost` | harness/memory_runtime.py:100-104 | one request with such a time is a run that ends idle with a request never answered |
| `RequestScheduler.ReaderStaysLost` | harness/memory_runtime.py:173-184 | once such a request made the reader fail, nothing more is read and the input is never seen to end |
| `RequestScheduler.StartsInOrder` | harness/memory_runtime.py:185-193 | what starts goes before everything left in the queue and after all earlier arrivals of its priority |
| `RequestScheduler.ReadsGoFirst` | harness/memory_runtime.py:100-133 | over every run a checkpoint lets in searches, health checks and expansions only, nothing else starts while one of these waits, no background ingest starts while a client waits, and within each of these classes the order is that of arrival |
| `RequestScheduler.OneIngestPerPath` | harness/memory_runtime.py:111-119 | at most one background ingest of a path is queued or executing |
| `RequestScheduler.InsertOrders` | harness/memory_runtime.py:100-109 | inserting keeps the queue ordered by priority and arrival |
| `RequestScheduler.SubmissionWaitsOrIsAnswered` | harness/memory_runtime.py:100-109 | a valid request waits exactly if there is room, without a limit always, and is answered at once otherwise |
| `RequestScheduler.ScheduledOnceAtATime` | harness/memory_runtime.py:111-119 | a background ingest of a path is queued exactly if none of it is scheduled and there is room |
| `RequestScheduler.ExecutionSteps` | harness/memory_runtime.py:121-193 | what begins, what a checkpoint counts and admits, and what the end of a request brings back |
| `RequestScheduler.QueueStaysWithin` | harness/memory_runtime.py:100-119 | with a limit the queue never holds more |
| `RequestScheduler.NeverStuck` | harness/memory_runtime.py:185-193 | while anything is queued or executing some step is possible |
| `RequestScheduler.Scheduler.SubmitRequest` | harness/memory_runtime.py:100-109 | a request is queued, answered at once if its times are invalid or the queue is full, or ends the reader if a time is beyond every float |
| `RequestScheduler.Scheduler.ScheduleIndex` | harness/memory_runtime.py:111-119 | a background ingest is queued unless its path is already scheduled or the queue is full |
| `RequestScheduler.Scheduler.YieldRead` | harness/memory_runtime.py:121-133 | a round of a checkpoint lets in the first read, or ends after eight or when no read is first |
| `RequestScheduler.Scheduler.TakeNext` | harness/memory_runtime.py:185-193 | the main loop takes the first request, and drops background ones after the input closed |
| `RequestScheduler.Scheduler.FinishExecution` | harness/memory_runtime.py:135-171 | an execution ends with one reply to a client, the path released, and the outer request current again |
| `BuildCacheReclaim.Plan` | src/buildCache.ts:266-293 | the plan is what has expired, and the fewest least recently used caches that meet the limit |
| `BuildCacheReclaim.TakeOldest` | src/buildCache.ts:284-293 | goes on through the oldest caches exactly until the limit is met or none is left |
| `BuildCacheReclaim.PlannedAre` | src/buildCache.ts:266-293 | a cache is planned exactly if it was picked or is among the first idle ones, and never while in use |
| `BuildCacheReclaim.ExpiresInTime` | src/buildCache.ts:266-279 | a recorded cache that is not in use expires exactly when a whole retention period in milliseconds has passed since its last use |
| `BuildCacheReclaim.OldestGoFirst` | src/buildCache.ts:284-291 | for lack of space a cache goes only before every idle one used later |
| `BuildCacheReclaim.PlanMeetsTheLimit` | src/buildCache.ts:280-293 | what is left keeps the limit or no unused cache is left, and sparing the last one taken would break the limit |
| `BuildCacheReclaim.LeastRecentlyUsed` | src/buildCache.ts:284-286 | the same caches, least recently used first |
| `BuildCacheReclaim.Adopt` | src/buildCache.ts:299-316 | a cache without a record of use counts as used now, if that could be recorded and not everything unused is cleared, and no retention period from now has it expire before its end |
| `BuildCacheReclaim.BuildCaches.ReclaimOne` | src/buildCache.ts:329-358 | skipped and in place if in use at either look; reclaimed and gone exactly if trusted, moved and removed; otherwise failed, and moved back where possible |
| `BuildCacheReclaim.BuildCaches.Reclaim` | src/buildCache.ts:318-358 | each visited cache ends as its looks and the file system decide, the counts and the freed bytes are those of the visited, and no other cache changes |
| `BuildCacheReclaim.BuildCaches.ReclaimPlanned` | src/buildCache.ts:252-370 | plan and execution together: reclaimed, skipped and failed add up to the plan, and freed bytes are the sizes of the planned caches that were reclaimed |
| `BuildCacheReclaim.FreedIsReclaimed` | src/buildCache.ts:350-351 | the sum over the visited keys is the size of the planned entries that were reclaimed |
| `BuildCacheReclaim.CountsPartition` | src/buildCache.ts:318-358 | the three counts add up to the plan |
| `BuildCacheReclaim.OnlyUnusedAreRemoved` | src/buildCache.ts:331-350 | a cache found in use at either look keeps its content, and only reclaimed ones lose it |
| `PngScanlines.PaethIsNearest` | scripts/visual-scenes.ts:357-364 | the predictor is the neighbour nearest to the estimate, with ties in the order left, upper, upper left |
| `PngScanlines.SubIsSummedAlong` | scripts/visual-scenes.ts:357-364 | for filter 1 the bytes of a line are the sums of its filtered bytes along each channel |
| `PngScanlines.UpIsSummedDown` | scripts/visual-scenes.ts:357-364 | for filter 2 the bytes of an image are the sums of its filtered bytes down each column |
| `PngScanlines.AverageRoundsDown` | scripts/visual-scenes.ts:357-364 | for filter 3 the prediction is half the sum of the left and the upper byte, rounded down |
| `PngScanlines.RepetitionVanishes` | scripts/visual-scenes.ts:357-364 | a line that repeats the one above, or whose pixels repeat, is filtered to zeros by the filters that predict it, the fourth among them |
| `PngScanlines.UnfilterLine` | scripts/visual-scenes.ts:347-366 | one line reconstructed in the output buffer is the line whose filtering was read, and earlier lines stay |
| `PngScanlines.Unfilter` | scripts/visual-scenes.ts:337-368 | the decoded image is one whose filtering, by the formulas of section 6 of RFC 2083, gives the bytes that were read, and zero where the input has ended |
| `PngScanlines.FilteringIsLossless` | scripts/visual-scenes.ts:337-368 | an image is determined by its filtered lines |
| `PngScanlines.EncodeFilters` | scripts/visual-scenes.ts:337-368 | every image has filtered lines for every choice of filters |
| `PngScanlines.DecodingUndoesEncoding` | scripts/visual-scenes.ts:337-368 | decoding undoes any such encoding |

## Left out

- Docker, Git, HTTP, the file system and model calls, except as atomic durable writes and arbitrary results.
- Pipeline: a `persist` or `changed` callback that throws, the version and skill check on opening, titles, specifications and the content of prompts.
- PipelineRun.ComponentResearchPipeline.constructor: refusing a stored list of another version or skill is left out.
- AnnotationLedgerStore.Amend: the location fields an operation may carry are left out.
- AnnotationLedgerStore.ReplayLog: operations on locations, and the owner-controlled adjustment of what a reader is shown, which `Shown` states, are not part of the replayed ledger.
- AnnotationLedgerStore.AnnotationStore.AddNote: the location, quote, context and pictures of the stored note are left out.
- AnnotationLedgerStore.AnnotationStore.RecordResponse: the evidence and the fixed commit of a receipt are left out.
- AnnotationLedgerStore.AnnotationStore.ReopenNote: the new anchor and line a reopening may carry are left out.
- Ledger: the location fields (`relocate_ticket`, anchors and lines), the order of the list, aliasing of record objects, prompt rendering, and the store methods `saveAgentContext`, `requestWithdrawal`, `replyAsOwner`, `answerClarification`, `replyToResponse`, `resetRequirementDelivery`, `drop` and `verify`; their operations are in the log all the same.
- Submission: the filters by which callers choose the selection and merge receipts, and the rendered text. A selection is never empty, as `submitAnnotationWithReceipts` only submits one that is not (src/annotationSubmission.ts:37-39).
- AnnotationSubmission.StepKeepsInv: a selection is taken to be read from the same ledger at some earlier time; what this gives is proved of every log in which no delivery is recorded as `owner_pending`, which no caller does. A hand-over by another caller is one step with the delivery it records, as both callers of `assignToAgent` outside a submission do it (src/taskService.ts:10774-10778, src/issueFlow/reviews.ts:129-130); a process that dies between the two appends is not part of this model.
- KnowledgePublication.PrepareFacts: the checks and refusals of a save are left out; what is stated is the prepared value.
- KnowledgePublication.ComponentPublisher.WritePrepared: whether the second preparation gives the same document is a parameter.
- KnowledgePublication.ComponentPublisher.PublishRecord: the section and proposal checks before the intent are left out.
- Publication: the checks of sections and proposals, the adoption callback, more than one record at a time.
- ResearchExecutors.ComponentResearchManager.ReviewRecord: the checks of mode, section and message are one parameter.
- Executors: writes of a record are taken to succeed; one that throws in `pump` leaves the record running in memory without an executor (src/componentResearch.ts:509-523), which the last conclusion of `OneExecutorPerRecord` excludes.
- ResearchExecutors.ComponentResearchManager.CreateRecord: the refusals of a start and the reuse of an existing record are left out.
- Executors: starting an update while an aborted executor of the same record still works, capacity shared with other clients, and publication replacing record objects.
- Git streams: process failures, time limits and cancellation, and surrogate pairs cut by a chunk border.
- MarkdownSections.SplitMarkdown: the scanner that finds headings and breaks is an input.
- Markdown: the line scanner; its headings, in line order, and its set of allowed breaks are inputs, so nothing is said about code fences. `index_sections` is left out.
- BoundedChunks.BoundedSections: is stated for prefixes whose shortening ends, as the source goes on for ever otherwise.
- Chunks: the tokenizer is an arbitrary function of the text; heading and source fields of a chunk are left out.
- Output mirror: live output events, the path and creation of the log file, and how a failure is worded.
- Utf8.ContinuationsAreShort: well-formed means the byte structure of UTF-8; overlong forms and surrogates are not excluded, so the results hold for more than valid text.
- Business modules: the text of a version is the published one after its line ends were unified; names, owners, repositories and the other metadata, sorting by title, the checks on a publication other than a blank text (one flag stands for them), the operations log, and damaged files.
- ModuleLibrary.BusinessModuleLibrary.CreateModule: the checks of owner, name and the other metadata are left out.
- ModuleLibrary.BusinessModuleLibrary.UpdateModule: only the status is updated.
- ModuleLibrary.BusinessModuleLibrary.PublishAsset: one parameter stands for the metadata, repository and size checks.
- ModuleIdentity.CheckRecords: the format of ids, names, operators and dates in a record is not part of the model.
- Scheduler: deadlines raised at a checkpoint count as one way an execution can end; timings, logs and the memory guard are left out. The reader's steps are atomic: that it draws a number and enqueues separately cannot be seen, as it never shares a priority with the scheduler's own requests.
- Reclaim: scanning and measuring the caches, and the status returned at the end.
- Reclaim: a cache made anew under the same name while the old one is removed counts as another one.
- PNG: chunk parsing and inflation; as in the source, filter types above 4 are treated as Paeth.
