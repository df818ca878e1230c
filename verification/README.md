# Push/Sync of the STYLY MDM, in Dafny

This project models the part of the STYLY MDM that delivers bundles of files to headsets, and
proves what it promises: the server's durable job machine, the client's coordinator that survives
process death, the console's view, and the smaller algorithms around them.

**The server.** `JobTables` gives the three durable tables (jobs, device rows, device fences) and
the effect of every transaction on them as a function; `JobStore` performs the same transactions in
place, with the loops the store has, and each method is proved equal to its function. `JobRuns`
lets all of them interleave in any order, together with restarts, lost and late client messages and
callers that act on what they read some steps ago; a step names its clock value. `JobInvariants`
holds the joint invariant: rows belong to jobs, enqueue numbers are unique, a job's state fits its
rows, one active row per device, a fence that names a job stands for an unconfirmed row of an
otherwise idle device, and every reconciling row has a deadline. `JobTheorems` states what follows
for whole runs, `JobUploads` what holds of a job before its devices get it, and `JobOutcomes` what
each transaction achieves, told in the columns of the tables. The step set is what the server's
callers make:

- `fail_pre_dispatch` is not called to fail a job that is running or reconciling. The upload handler's
  other calls, among them the interruption after publication that the table refuses, all occur.
- `_handle_busy` is not one atomic step. It reads the client's other execution (`Sight`), and the
  requeue may come any number of steps later; the requeue is then proved to be refused.
- The artifact mismatch found at REGISTER may fail a queued row at any time, also before the job
  runs. One property is false because of that, see below.

**The client.** `PushProtocol` is the wire and durable format, `Coordinator` the coordinator and
its gate; a ghost trace holds what each handler does outside, in the order save, send, start.
`CoordinatorRuns` adds everything that can go wrong: messages in any number and order, saves that
fail, and a process that dies before a save, after it, or between two of the messages that follow.
`CoordinatorOutcomes` tells what each handler achieves and where every result kept comes from.
`ResultReplay` joins both sides: what the server does with each copy of a result that the client
sends again.

**The rest.** `Publication` (the server's publication loop), `Console` (the page's merge),
`DbWorker` (the database thread and its queue), `Mirror` (applying a bundle to the destination
directory), `ConnectionWindow` (when the client may make traffic), `Eocd` (the ZIP end record) and
`Journal` (the client's update journal). `PushJobs` holds the states and tables both sides share, and
`Blanks` what counts as white space.

## Where a promise does not hold

- *A dispatched job's state is the one its rows give.* Not always: if the only queued rows of a
  ready job are failed for their artifact at REGISTER before an admin enables it, enabling makes the
  job running with nothing left to do, and nothing derives its state again.
  `JobTheorems.AgreementCanFail` builds such a run; `JobTheorems.JobsAgreeExactlyWhen` proves that a
  run keeps the agreement if and only if it never enables a ready job whose rows have all failed.
- *A job is started at most once on a client.* Within retention it is (`StartedAtMostOnce`). Past
  it, every job ordered again is started again (`StartedTwiceWhenAged`); `StartsExactlyWhen` gives
  the exact condition in every run: saving works, in this process and for this order, nothing is
  active on the disk, and the disk does not hold the job.
- *The console shows the newest revision received.* With the one job list per socket that the
  server sends it does. A second list would start afresh; `SeveralListsConvergeExactlyWhen` says
  when nothing is lost then.
- *Traffic in a window is bounded, and before its deadline.* `TrafficIsBounded` states it window by
  window, without a premise on the configuration. Both intervals are truncated to milliseconds, so
  either may read as zero. A window of length zero still makes its one attempt, due at its deadline.
  The bound is lost exactly when the retry interval is zero and the window is not;
  `ZeroRetryIsUnbounded` then has any number of attempts.

## Model

| member | source | states |
|---|---|---|
| `PushJobs.Derive` | mdm-server/styly_mdm/push_jobs.py:377-402 | the derived job state is terminal exactly when all rows are, reconciling exactly when one row is, succeeded or failed exactly for the row states that mean it |
| `JobStore.PushJobStore.RederiveJob` | mdm-server/styly_mdm/push_job_store.py:347-363 | before dispatch and after an upload failure the job stays, otherwise it gets the state its rows give |
| `JobStore.PushJobStore.CreateJob` | mdm-server/styly_mdm/push_job_store.py:479-552 | a repeated request creates nothing, a repeated id with another body conflicts, a new job gets one queued row per target with consecutive enqueue numbers |
| `JobStore.PushJobStore.ClaimNext` | mdm-server/styly_mdm/push_job_manager.py:341-437 | takes the oldest claimable row of an online device, and none only if there is none |
| `JobStore.PushJobStore.PrepareDispatch` | mdm-server/styly_mdm/push_job_manager.py:439-495 | a waiting row becomes dispatching with its accept deadline and the job is rederived, otherwise nothing changes |
| `JobStore.PushJobStore.TransitionDevice` | mdm-server/styly_mdm/push_job_store.py:745-821 | every row change the callers make, with its expected states, its columns and the derived job state |
| `JobStore.PushJobStore.MarkAcceptanceReconciling` | mdm-server/styly_mdm/push_job_manager.py:262-328 | the accept timeout works only for the exact deadline that is stored |
| `JobStore.PushJobStore.MarkUnconfirmed` | mdm-server/styly_mdm/push_job_manager.py:576-658 | row, fence and all affected job revisions change in one commit, or nothing does |
| `JobStore.PushJobStore.AddOpaqueFence` | mdm-server/styly_mdm/push_job_manager.py:660-734 | an unchanged report leaves everything, a new one replaces the fence and bumps the jobs that show it |
| `JobStore.PushJobStore.ClearFenceOnProcessReplacement` | mdm-server/styly_mdm/push_job_manager.py:736-777 | only a new process of a job-v1 client clears the fence |
| `JobStore.PushJobStore.ClearMatchingFence` | mdm-server/styly_mdm/push_job_manager.py:779-817 | only the fence that names this very job goes |
| `JobStore.PushJobStore.ClearMatchingOpaqueFence` | mdm-server/styly_mdm/push_job_manager.py:819-877 | only an opaque fence that names this job goes |
| `JobStore.PushJobStore.SettleLateFencedResult` | mdm-server/styly_mdm/push_job_manager.py:879-927 | a late result clears its fence and leaves the unconfirmed row |
| `JobStore.PushJobStore.ReconcileReport` | mdm-server/styly_mdm/push_job_manager.py:929-1064 | every report on a row: resume, one replay before acceptance, interruption, clearing the fence, or a conflict that changes nothing |
| `JobStore.PushJobStore.SettleResult` | mdm-server/styly_mdm/push_job_store.py:823-923 | settles from any state after dispatch, compares a terminal row column by column, refuses the rest |
| `JobStore.PushJobStore.RecoverStartup` | mdm-server/styly_mdm/push_job_store.py:1011-1133 | the two recovery loops and the rederivation give exactly the recovered tables, whatever order the loops take |
| `JobStore.PushJobStore.ReconcileMissingArtifacts` | mdm-server/styly_mdm/push_job_manager.py:1092-1167 | the loop over jobs without their file gives exactly the salvaged tables |
| `JobUploads.UploadStartsExactlyInTime` | mdm-server/styly_mdm/push_job_store.py:557-596 | an upload starts exactly for a created job before its deadline; a late one interrupts the job; no other job, row, fence or number moves, and the revision rises exactly if the job changed |
| `JobUploads.ExpiryEndsExactlyWhen` | mdm-server/styly_mdm/push_job_store.py:973-1009 | the expiry interrupts exactly a created job that is due and whose deadline is still the one it was armed for |
| `JobUploads.PackagingFollowsUpload` | mdm-server/styly_mdm/push_job_store.py:598-610 | packaging follows exactly a running upload and changes nothing otherwise |
| `JobUploads.PublicationFollowsPackaging` | mdm-server/styly_mdm/push_job_store.py:612-653 | publication follows exactly packaging and gives the job its artifact |
| `JobUploads.FailureEndsExactlyAlongTable` | mdm-server/styly_mdm/push_job_store.py:655-684 | a failed upload ends the job exactly along an edge of the table and takes nothing it had |
| `JobUploads.EnablingOpensExactlyPublished` | mdm-server/styly_mdm/push_job_store.py:686-723 | the dispatch gate opens exactly for a published job whose gate is shut, and the first opening starts it |
| `JobUploads.OneJobPerRequest` | mdm-server/styly_mdm/push_job_store.py:479-552 | in every run a request makes at most one job, however often it is repeated |
| `JobUploads.ArtifactsAreImmutable` | mdm-server/styly_mdm/push_job_store.py:612-653 | from any moment of a run to any later one a job keeps its request, deadline, upload time, counts and artifact |
| `JobUploads.ClaimedJobsAreUploaded` | mdm-server/styly_mdm/push_job_manager.py:352-437 | whatever is claimed belongs to an enabled job with an artifact whose upload began in time |
| `JobUploads.EndedJobsAreDated` | mdm-server/styly_mdm/push_job_store.py:347-363 | at every moment of a run exactly the finished jobs carry the time they ended |
| `JobOutcomes.RequestIsAnswered` | mdm-server/styly_mdm/push_job_store.py:485-552 | a repeated request is kept or conflicts by the body stored first; a new one adds one created job and touches nothing else |
| `JobOutcomes.TargetsAreQueued` | mdm-server/styly_mdm/push_job_store.py:528-545 | each target of a new job is queued with its protocol and its place in the order of the request |
| `JobOutcomes.ClaimTakesOldestEligible` | mdm-server/styly_mdm/push_job_manager.py:352-437 | in every reachable state the claim takes the oldest row that is queued, enabled, dispatched and first of an online, idle, unfenced device, also while another device of the job is in doubt, and takes none exactly if there is none |
| `JobOutcomes.ClaimAndPrepareMoveOn` | mdm-server/styly_mdm/push_job_manager.py:439-495 | a claim moves one row to the transfer; preparing acts exactly on a waiting row and sends it out with its protocol and deadline |
| `JobOutcomes.TransitionsReach` | mdm-server/styly_mdm/push_job_store.py:745-821 | each caller of the transition acts exactly in its states, takes the row to its state with its deadline and time columns, and moves no other row |
| `JobOutcomes.AcceptTimeoutDecides` | mdm-server/styly_mdm/push_job_manager.py:262-328 | a command not accepted by its very deadline is in doubt from then on, a repeated report changes nothing, any other is refused |
| `JobOutcomes.ResultSettlesExactly` | mdm-server/styly_mdm/push_job_store.py:823-923 | a result settles exactly a row that was sent out and is not over, with its verdict, counts, code and detail; a row never sent refuses it; a finished one accepts exactly what its columns say |
| `JobOutcomes.StrayResultsChangeNothing` | mdm-server/styly_mdm/push_job_store.py:838-854 | a result for no row or another attempt is an error and changes nothing |
| `JobOutcomes.ReportDecides` | mdm-server/styly_mdm/push_job_manager.py:986-1060 | a row in doubt that the client reports absent is queued again if and only if it was not accepted, timed out or disconnected before acceptance, was not replayed and its job is enabled; every other report resumes or ends it as said |
| `JobOutcomes.ReportElsewhere` | mdm-server/styly_mdm/push_job_manager.py:953-985 | on any other row a report ends the fence of unconfirmed work that is over, and is otherwise a conflict |
| `JobOutcomes.DoubtEndsInFence` | mdm-server/styly_mdm/push_job_manager.py:576-658 | the timeout acts exactly on a row in doubt at its deadline, and leaves it unconfirmed, its device fenced in its name and every job that shows it revised |
| `JobOutcomes.OpaqueFenceStands` | mdm-server/styly_mdm/push_job_manager.py:660-734 | afterwards the device is fenced for exactly the reported work, other devices are not touched and unfinished jobs there are revised |
| `JobOutcomes.NewProcessEndsFence` | mdm-server/styly_mdm/push_job_manager.py:736-777 | a new process of a job-v1 client, and nothing else, ends whatever fence there is |
| `JobOutcomes.ClearingAnswers` | mdm-server/styly_mdm/push_job_manager.py:779-877 | each clearing answers whether it cleared: exactly the fence that names the job |
| `JobOutcomes.LateResultIsAccepted` | mdm-server/styly_mdm/push_job_manager.py:879-927 | a late result of an unconfirmed row is accepted unless the device is fenced for other work, and ends the fence in its name |
| `JobOutcomes.LossFailsWhatNeedsIt` | mdm-server/styly_mdm/push_job_manager.py:1092-1167 | a lost artifact fails a ready job, and of one under way exactly the rows that still need it |
| `JobOutcomes.RestartResets` | mdm-server/styly_mdm/push_job_store.py:1011-1133 | after a restart in any reachable state nothing is on its way: waiting rows are queued, the others in doubt with the short or the long deadline by acceptance, uploads interrupted, overdue jobs ended and jobs under way paused |
| `JobOutcomes.OnlyEnableOpens` | mdm-server/styly_mdm/push_job_store.py:686-723 | only the enabling of that job opens its gate |
| `JobOutcomes.NothingClaimedUntilEnabled` | mdm-server/styly_mdm/push_job_store.py:1051-1060 | between a restart and a claim the job was enabled again |
| `JobOutcomes.ActiveRowsMoveOn` | mdm-server/styly_mdm/push_job_store.py:873-923 | no row is stuck: from every active state in every run a result, a disconnection or its deadline takes it on |
| `JobRuns.StepEvolves` | mdm-server/styly_mdm/push_job_store.py:301-363 | every transaction in every reachable state moves rows, jobs and fences only in the allowed ways |
| `JobInvariants.EvolvesKeepsInv` | mdm-server/styly_mdm/push_job_store.py:245-300 | such a move keeps the joint invariant over rows, jobs and fences |
| `JobRuns.RunsKeepInv` | mdm-server/styly_mdm/push_job_store.py:301-363 | the invariant holds at every moment of every run |
| `JobTheorems.AtMostOnce` | mdm-server/styly_mdm/push_job_manager.py:1006-1031 | a row that has been downloading, validating or applying is never again queued, waiting or dispatching, in any run |
| `JobTheorems.NoRestart` | mdm-server/styly_mdm/push_runtime.py:1003-1037 | a row that may not be restarted stays so, through disconnects, busy replies and restarts |
| `JobRuns.BusyRequeueIsDead` | mdm-server/styly_mdm/push_scheduler.py:536-656 | when the busy requeue comes its row is terminal, so it is always refused |
| `JobRuns.SightedIsOver` | mdm-server/styly_mdm/push_scheduler.py:551-630 | whenever a claimed row's device is seen busy with another job, that row is already terminal |
| `JobTheorems.ReplayedOnce` | mdm-server/styly_mdm/push_job_manager.py:1006-1031 | a row goes back from reconciliation to the queue at most once in a run |
| `JobTheorems.TerminalRowsAreFrozen` | mdm-server/styly_mdm/push_jobs.py:143-184 | a terminal row never changes again in any column |
| `JobRuns.ClaimPassesOlder` | mdm-server/styly_mdm/push_job_manager.py:352-437 | when a row is claimed, every older row of the device is terminal or belongs to a terminal job |
| `JobTheorems.ClaimsInOrder` | mdm-server/styly_mdm/push_job_manager.py:352-437 | claims on one device never decrease in enqueue number over a whole run |
| `JobTheorems.SeqsStay` | mdm-server/styly_mdm/push_job_store.py:314-323 | enqueue numbers never change and new rows get later ones |
| `JobTheorems.FencedRowsAreUnconfirmed` | mdm-server/styly_mdm/push_job_manager.py:606-646 | a fence naming a job means its row is unconfirmed and no row of the device is active |
| `JobTheorems.SettleClearsNoFence` | mdm-server/styly_mdm/push_job_store.py:907-913 | the DELETE of a fence inside `settle_result` removes nothing in any reachable state |
| `JobTheorems.ReconciliationEnds` | mdm-server/styly_mdm/push_job_manager.py:576-658 | a reconciling row has a deadline; from then on the timeout for that value makes it unconfirmed and fenced in one commit, and no other value changes anything |
| `JobTheorems.FenceEndsExactlyOn` | mdm-server/styly_mdm/push_job_manager.py:736-1004 | in every state the invariant admits, hence in every reachable one, a step removes a fence if and only if it is a new process of a job-v1 client, or word that the very execution it stands for is over |
| `JobTheorems.FencedUntilEvidence` | mdm-server/styly_mdm/push_job_manager.py:736-927 | between a moment with a fence and a later one without it lies a step that had the evidence to clear it and did |
| `JobTheorems.FencedDeviceClaimsNothing` | mdm-server/styly_mdm/push_job_manager.py:367-378 | between the fence and the next claim on its device lies a step that had that evidence and removed the fence |
| `JobTheorems.JobStatesFollowTable` | mdm-server/styly_mdm/push_jobs.py:120-141 | every change of a job's state in a run is an edge of the table, also the unvalidated ones |
| `JobTheorems.TerminalJobsStay` | mdm-server/styly_mdm/push_jobs.py:350-356 | a terminal job keeps its state for ever |
| `JobTheorems.JobsAgreeExactlyWhen` | mdm-server/styly_mdm/push_job_store.py:347-363 | dispatched jobs have the state of their rows throughout a run if and only if no ready job is enabled after all its rows failed |
| `JobTheorems.AgreementCanFail` | mdm-server/styly_mdm/push_runtime.py:892-975 | for any identifiers there is a run in which such a job runs with nothing to do |
| `JobTheorems.RevisionsIdentifyContent` | mdm-server/styly_mdm/push_job_store.py:1011-1133 | a job's revision never decreases, and equal revisions mean the same job and the same rows |
| `JobTheorems.ClaimNeedsNoIndex` | mdm-server/styly_mdm/push_job_store.py:289-294 | the claim guard alone keeps one active row per device, so the unique index never objects |
| `JobTheorems.SettledOnce` | mdm-server/styly_mdm/push_job_store.py:855-872 | after a result settled a row, at any later moment its copies are accepted, others refused, and nothing changes |
| `PushProtocol.ParsedIsStorable` | mdm-client/app/src/main/java/com/styly/mdmclient/PushProtocol.kt:126-176 | every command the client accepts is read back from its durable record as itself |
| `PushProtocol.ParsedIsTheMessage` | mdm-client/app/src/main/java/com/styly/mdmclient/PushProtocol.kt:126-174 | each field of a parsed command is the one of the message, trimmed, lower-cased or defaulted as promised |
| `PushProtocol.StorableIsWellFormed` | mdm-client/app/src/main/java/com/styly/mdmclient/PushProtocol.kt:39-50 | the durable record gives a command back if and only if it is in good order |
| `PushProtocol.ResultReread` | mdm-client/app/src/main/java/com/styly/mdmclient/PushProtocol.kt:205-216 | what is left of a result after saving and reloading |
| `PushProtocol.ResultResentIsSame` | mdm-client/app/src/main/java/com/styly/mdmclient/PushProtocol.kt:75-95 | saved, reloaded and sent again, a result is the same message |
| `PushProtocol.ReadReceipts` | mdm-client/app/src/main/java/com/styly/mdmclient/PushProtocol.kt:237-253 | a corrupt receipt costs itself only, the others keep their order |
| `PushProtocol.StateReread` | mdm-client/app/src/main/java/com/styly/mdmclient/PushProtocol.kt:218-257 | the durable state round trips: active execution, phase and receipts in order |
| `Coordinator.PushExecutionGate.Offer` | mdm-client/app/src/main/java/com/styly/mdmclient/PushExecutionGate.kt:18-32 | the lease is granted exactly when it was free, a second execution is a duplicate, a clash or busy |
| `Coordinator.PushExecutionGate.Release` | mdm-client/app/src/main/java/com/styly/mdmclient/PushExecutionGate.kt:34-38 | only the holder's identity frees the lease |
| `CoordinatorOutcomes.GateDecides` | mdm-client/app/src/main/java/com/styly/mdmclient/PushExecutionGate.kt:18-32 | granted exactly if free, a duplicate exactly for the very execution held, a clash for other content under its identity, busy otherwise |
| `CoordinatorOutcomes.SameExecutionIsEquality` | mdm-client/app/src/main/java/com/styly/mdmclient/PushProtocol.kt:31-37 | for commands the client keeps, the same execution means the same command |
| `Coordinator.PushJobCoordinator.Boot` | mdm-client/app/src/main/java/com/styly/mdmclient/PushJobCoordinator.kt:84-89 | load, recover, save; the process is ready exactly when that save succeeded |
| `Coordinator.PushJobCoordinator.Persist` | mdm-client/app/src/main/java/com/styly/mdmclient/PushJobCoordinator.kt:514-531 | memory follows the disk, and a failed save changes nothing but the durability flag |
| `Coordinator.PushJobCoordinator.HandleCommand` | mdm-client/app/src/main/java/com/styly/mdmclient/PushJobCoordinator.kt:174-207 | receipts answer first, then durability, then the gate; the trace grows by exactly the save, the messages and the worker of the outcome, in that order |
| `Coordinator.PushJobCoordinator.Accept` | mdm-client/app/src/main/java/com/styly/mdmclient/PushJobCoordinator.kt:209-232 | the trace shows the save, then the acceptance, then the worker; if the save fails only a refusal, and the lease is given back |
| `Coordinator.PushJobCoordinator.SetPhase` | mdm-client/app/src/main/java/com/styly/mdmclient/PushJobCoordinator.kt:400-404 | saves the phase of the current execution, and of no other, and reports nothing itself |
| `Coordinator.PushJobCoordinator.HandleTransferComplete` | mdm-client/app/src/main/java/com/styly/mdmclient/PushJobCoordinator.kt:316-334 | the trace shows validating saved and then the transfer reported, or neither |
| `Coordinator.PushJobCoordinator.HandleValidated` | mdm-client/app/src/main/java/com/styly/mdmclient/PushJobCoordinator.kt:336-351 | reported for the current job-v1 execution in the validating phase only |
| `Coordinator.PushJobCoordinator.HandleApplying` | mdm-client/app/src/main/java/com/styly/mdmclient/PushJobCoordinator.kt:353-363 | the trace shows applying saved and then reported, or neither |
| `Coordinator.PushJobCoordinator.HandleTerminal` | mdm-client/app/src/main/java/com/styly/mdmclient/PushJobCoordinator.kt:365-388 | the trace shows outbox and receipt saved and then the result sent, or neither; the lease is free exactly after the save |
| `Coordinator.PushJobCoordinator.HandleAck` | mdm-client/app/src/main/java/com/styly/mdmclient/PushJobCoordinator.kt:418-428 | a conclusive acknowledgement moves the result from the outbox to the receipts, once |
| `Coordinator.PushJobCoordinator.HandleReconcileRequest` | mdm-client/app/src/main/java/com/styly/mdmclient/PushJobCoordinator.kt:434-474 | one answer per identity, in order |
| `Coordinator.PushJobCoordinator.ReplayPendingResults` | mdm-client/app/src/main/java/com/styly/mdmclient/PushJobCoordinator.kt:430-432 | the whole outbox, in order |
| `CoordinatorOutcomes.OrderIsAnswered` | mdm-client/app/src/main/java/com/styly/mdmclient/PushJobCoordinator.kt:174-279 | the answer to a job-v1 order in every situation, and what is saved and started with it |
| `CoordinatorOutcomes.LegacyOrderIsAnswered` | mdm-client/app/src/main/java/com/styly/mdmclient/PushJobCoordinator.kt:174-314 | an order without identity is never a duplicate and starts only in an idle client that saved it; a malformed one starts nothing |
| `CoordinatorOutcomes.FoundReceiptIsItsOwn` | mdm-client/app/src/main/java/com/styly/mdmclient/PushJobCoordinator.kt:182-194 | the receipt repeated carries the identity ordered, and there is none exactly if none is kept |
| `CoordinatorOutcomes.PhasesAreSaved` | mdm-client/app/src/main/java/com/styly/mdmclient/PushJobCoordinator.kt:316-363 | validating and applying are saved and reported for the execution they belong to |
| `CoordinatorOutcomes.ResultIsRecorded` | mdm-client/app/src/main/java/com/styly/mdmclient/PushJobCoordinator.kt:365-388 | a result becomes the newest receipt and for a job the newest of the outbox, frees the lease and is sent as it is; a failed save leaves all as it was |
| `CoordinatorOutcomes.StrayWorkersAreIgnored` | mdm-client/app/src/main/java/com/styly/mdmclient/PushJobCoordinator.kt:365-407 | callbacks of another execution change and say nothing |
| `CoordinatorOutcomes.AckMovesResult` | mdm-client/app/src/main/java/com/styly/mdmclient/PushJobCoordinator.kt:29-44 | a conclusive acknowledgement takes exactly its results out of the outbox and keeps the newest as a receipt; any other changes nothing |
| `CoordinatorOutcomes.NormalizedReceipts` | mdm-client/app/src/main/java/com/styly/mdmclient/PushJobStore.kt:10-20 | a receipt is dropped for its age exactly if it has a time more than seven days back |
| `CoordinatorOutcomes.NormalizedIsNewest` | mdm-client/app/src/main/java/com/styly/mdmclient/PushJobStore.kt:10-20 | outbox and receipts keep their newest 256 in order |
| `CoordinatorOutcomes.AnswerTellsItsOwn` | mdm-client/app/src/main/java/com/styly/mdmclient/PushJobCoordinator.kt:434-474 | the phase reported is the active one, the result sent belongs to the identity asked for, and absence is told exactly if neither is kept |
| `CoordinatorOutcomes.BootRecordsInterruption` | mdm-client/app/src/main/java/com/styly/mdmclient/PushJobCoordinator.kt:481-504 | a boot over an active execution records it as a failure by restart, newest of the receipts and of the outbox |
| `CoordinatorOutcomes.ResultsAreExplained` | mdm-client/app/src/main/java/com/styly/mdmclient/PushJobCoordinator.kt:365-504 | in every run within retention each result kept is what a worker of that command finished with, or tells that a crash ended it |
| `CoordinatorOutcomes.SuccessIsEarned` | mdm-client/app/src/main/java/com/styly/mdmclient/PushJobCoordinator.kt:481-504 | no crash produces a success: one that is kept was finished by its worker |
| `CoordinatorRuns.CrashesAreThePrefixes` | mdm-client/app/src/main/java/com/styly/mdmclient/PushJobCoordinator.kt:11-27 | stopping a handler after any number of the deeds in its trace leaves the phone exactly as one of the crash points of the runs does |
| `CoordinatorRuns.RunsInStep` | mdm-client/app/src/main/java/com/styly/mdmclient/PushJobCoordinator.kt:11-27 | in every run a ready process holds what the disk holds and the lease of its active command, and one that is not ready holds nothing |
| `CoordinatorRuns.StartsExactlyWhen` | mdm-client/app/src/main/java/com/styly/mdmclient/PushJobCoordinator.kt:174-232 | in every run an ordered job is started exactly when the save works, nothing is active on the disk and the disk does not hold the job |
| `CoordinatorRuns.RetentiveRunsAreSound` | mdm-client/app/src/main/java/com/styly/mdmclient/PushJobStore.kt:10-20 | within retention the disk holds every job ever started or accepted, one command per job |
| `CoordinatorRuns.StartedAtMostOnce` | mdm-client/app/src/main/java/com/styly/mdmclient/PushJobCoordinator.kt:174-232 | at most 256 receipts and none aged out: a worker starts at most once per job and attempt, whatever is lost, repeated, reordered, unsaved or killed |
| `CoordinatorRuns.StartedTwiceWhenAged` | mdm-client/app/src/main/java/com/styly/mdmclient/PushJobStore.kt:10-20 | for every job there is a run past retention that starts it twice |
| `CoordinatorRuns.AcceptedIsRemembered` | mdm-client/app/src/main/java/com/styly/mdmclient/PushJobCoordinator.kt:209-218 | once accepted, a command stays on the disk as the active one or as a receipt, across every crash |
| `CoordinatorRuns.AbsentExactlyBeforeStartup` | mdm-client/app/src/main/java/com/styly/mdmclient/PushJobCoordinator.kt:434-474 | an accepted command is answered absent if and only if the running process's startup save has not succeeded |
| `CoordinatorRuns.ResultStaysInOutbox` | mdm-client/app/src/main/java/com/styly/mdmclient/PushJobCoordinator.kt:365-432 | a saved result stays in the outbox with the same message until a conclusive acknowledgement, and every registration sends it |
| `CoordinatorRuns.AckKeepsGood` | mdm-client/app/src/main/java/com/styly/mdmclient/PushJobCoordinator.kt:29-44 | an acknowledgement neither loses nor doubles a job's receipt |
| `ResultReplay.SettledOnceForAll` | mdm-server/styly_mdm/push_runtime.py:1313-1498 | after a result settled the row, each later message is accepted exactly when the server reads the same verdict from it, and changes nothing, wherever other transactions run in between, unless an opaque fence names the job |
| `ResultReplay.ReplayIsIdempotent` | mdm-server/styly_mdm/push_runtime.py:1434-1458 | both sides together: the client's copies after any crashes are the same message and the server accepts each without changing a table |
| `ResultReplay.ClientResultIsWellFormed` | mdm-server/styly_mdm/push_runtime.py:1319-1357 | the server's checks admit every result a client makes |
| `ResultReplay.MessageIsHandled` | mdm-server/styly_mdm/push_runtime.py:1313-1498 | the handling of a result message in every situation, with other transactions in between: what is cleared, settled, looked at again and answered |
| `ResultReplay.VerdictOfClient` | mdm-server/styly_mdm/push_runtime.py:1434-1458 | the verdict read from a client result: its outcome, its counts, its reason or the default one, clipped |
| `ResultReplay.InterruptionIsNoSuccess` | mdm-server/styly_mdm/push_runtime.py:1434-1458 | the message of a crash reads as a failure by restart |
| `Publication.ForwardedIncreases` | mdm-server/styly_mdm/push_runtime.py:1685-1713 | for any interleaving the revisions forwarded for a job strictly increase, and each was offered |
| `Publication.DrainedMeansNewest` | mdm-server/styly_mdm/push_runtime.py:1694-1713 | whenever nothing is pending, and whenever the loop sleeps with no wake-up due, the last one forwarded for a job is the newest ever offered |
| `Publication.Publisher.Drain` | mdm-server/styly_mdm/push_runtime.py:1694-1713 | a pass ends with nothing pending, whatever is published during each of its forwards, and what it forwarded last for each job is then the newest offered |
| `Publication.PublishKeepsInv` | mdm-server/styly_mdm/push_runtime.py:1685-1692 | publishing keeps what is pending the newest offered, wakes the loop for it, and never makes a forwarded revision look newer |
| `Publication.WakesExactlyForNews` | mdm-server/styly_mdm/push_runtime.py:1685-1697 | a wake-up is due exactly if a newer revision or the stop came since the loop last woke |
| `Publication.LoopEndsWhenStopped` | mdm-server/styly_mdm/push_runtime.py:1712-1713 | the loop ends only when told to stop, and a drained loop that was told does end |
| `Console.OneSocketConverges` | mdm-server/styly_mdm/static/push-jobs-v1.js:191-232 | whatever the order of the list and the updates, the page ends with exactly the jobs received, each at its largest revision |
| `Console.ShowsTheNewest` | mdm-server/styly_mdm/static/push-jobs-v1.js:467-480 | before the first list the page is unchanged and the buffer holds the newest, afterwards the page does |
| `Console.NewerIsNewest` | mdm-server/styly_mdm/static/push-jobs-v1.js:191-207 | if the page or the buffer held the newest of what came, it holds the newest of that and one more update |
| `Console.SeveralListsConvergeExactlyWhen` | mdm-server/styly_mdm/static/push-jobs-v1.js:209-232 | with several lists the page is at the largest revisions if and only if what came with and after the last list covers them |
| `Console.Page.ReplaceJobs` | mdm-server/styly_mdm/static/push-jobs-v1.js:209-232 | the list merged with the buffer, whatever order the buffer is visited in |
| `Console.Page.MergeBuffered` | mdm-server/styly_mdm/static/push-jobs-v1.js:216-219 | a buffered job wins only if strictly newer |
| `Console.Page.ObserveMessage` | mdm-server/styly_mdm/static/push-jobs-v1.js:467-480 | messages of other sockets change nothing |
| `DbWorker.NoLostCall` | mdm-server/styly_mdm/push_job_store.py:93-175 | for every interleaving a future is completed exactly once or still owed by the queue, the thread or its failure list, and once the thread has ended nothing is queued and all are done |
| `DbWorker.OutcomesStay` | mdm-server/styly_mdm/push_job_store.py:129-155 | a completed future keeps its outcome |
| `DbWorker.NextKeepsNothingLost` | mdm-server/styly_mdm/push_job_store.py:157-166 | whatever is submitted, cancelled, closed or done, every future that is not done stays owed by the queue, the thread or its failure list |
| `DbWorker.NextKeepsSentinelLast` | mdm-server/styly_mdm/push_job_store.py:168-174 | there is at most one sentinel, behind everything submitted, and as long as the thread runs a closed worker has one |
| `DbWorker.CompletedOnlyBy` | mdm-server/styly_mdm/push_job_store.py:93-166 | who completes a future and how: its call by returning or raising, its caller by cancelling in time, the worker by stopping |
| `DbWorker.FinishedAsItEnded` | mdm-server/styly_mdm/push_job_store.py:108-114 | a call that ends is completed with how it ended |
| `DbWorker.TakenInOrder` | mdm-server/styly_mdm/push_job_store.py:97-103 | no call is taken before one that was waiting when it was submitted |
| `DbWorker.ClosingCompletes` | mdm-server/styly_mdm/push_job_store.py:168-175 | once closed or failed the thread always has a step until it has ended, each brings it closer, and no caller pushes the end away |
| `DbWorker.Thread.FailLocked` | mdm-server/styly_mdm/push_job_store.py:129-145 | empties the queue and lists every future that is not done, the active one first |
| `DbWorker.Thread.FailRest` | mdm-server/styly_mdm/push_job_store.py:150-155 | whatever callers cancel in between, every listed future ends done, none is completed twice and none that was done changes |
| `Mirror.Destination.Apply` | mdm-client/app/src/main/java/com/styly/mdmclient/BundleSync.kt:17-91 | fails at once on a root that is no ordinary directory; succeeds exactly when every staged file can be copied and no link blocks a staged name, with the exact tree and counts; and a failed one has put nothing but staged files and their directories in place, has lost nothing before the deletion and then only extras |
| `Mirror.SucceedsExactlyWhen` | mdm-client/app/src/main/java/com/styly/mdmclient/BundleSync.kt:17-91 | success exactly if staging has no link, each staged file finds directories above it and nothing, a file or an empty directory at its place, and, if extras go, no link stands where anything is staged |
| `Mirror.PartlyCopiedIsSafe` | mdm-client/app/src/main/java/com/styly/mdmclient/BundleSync.kt:28-50 | a copy that stopped anywhere has lost no entry and written only staged paths |
| `Mirror.PartlyPrunedIsSafe` | mdm-client/app/src/main/java/com/styly/mdmclient/BundleSync.kt:74-89 | a deletion that stopped anywhere has every staged file in place and removed only extras |
| `Mirror.Destination.CopyAll` | mdm-client/app/src/main/java/com/styly/mdmclient/BundleSync.kt:28-50 | succeeds exactly when staging has no link and each file can be copied into the original destination, whatever the order |
| `Mirror.Destination.CollectStaged` | mdm-client/app/src/main/java/com/styly/mdmclient/BundleSync.kt:54-72 | the staged files, the staged directories and all their ancestors |
| `Mirror.Destination.EntriesBottomUp` | mdm-client/app/src/main/java/com/styly/mdmclient/BundleSync.kt:123-135 | every entry once, none before an entry below it |
| `Mirror.Destination.Prune` | mdm-client/app/src/main/java/com/styly/mdmclient/BundleSync.kt:74-89 | stops exactly when a link occupies a staged name; otherwise exactly the staged entries stay and the count is exact |
| `Mirror.ExtraDirectoryIsEmpty` | mdm-client/app/src/main/java/com/styly/mdmclient/BundleSync.kt:86-88 | an extra directory is empty when its turn to be deleted comes |
| `Mirror.MirrorIsExact` | mdm-client/app/src/main/java/com/styly/mdmclient/BundleSync.kt:52-91 | after a mirror the destination has exactly the staged files and contents, only staged directories and no link |
| `Mirror.OverlayIsExact` | mdm-client/app/src/main/java/com/styly/mdmclient/BundleSync.kt:28-52 | without deletion the files are the old ones overridden by the staged ones, and nothing else goes |
| `Mirror.MirrorIsGrounded` | mdm-client/app/src/main/java/com/styly/mdmclient/BundleSync.kt:74-91 | what is left is a tree again |
| `Mirror.MirrorIsStable` | mdm-client/app/src/main/java/com/styly/mdmclient/BundleSync.kt:17-91 | mirroring the same bundle again succeeds and changes nothing |
| `Mirror.OthersDoNotMatter` | mdm-client/app/src/main/java/com/styly/mdmclient/BundleSync.kt:36-49 | copying other staged files changes neither whether a file can be copied nor whether it existed |
| `ConnectionWindow.TrafficIsBounded` | mdm-client/app/src/main/java/com/styly/mdmclient/ConnectionScheduler.kt:52-118 | for each window by itself and any configuration: with a retry interval at most 1 + (window - 1) / retry attempts, with no length exactly one, the first at its start and each later one due before its deadline, however late the looper runs |
| `ConnectionWindow.WindowsExpire` | mdm-client/app/src/main/java/com/styly/mdmclient/ConnectionScheduler.kt:94-98 | an open window has its expiry pending, and when that fires the client is silent |
| `ConnectionWindow.TrafficMatchesPhase` | mdm-client/app/src/main/java/com/styly/mdmclient/ConnectionScheduler.kt:20-118 | at every moment an attempt or a timer exists only in an open window, and a connection exactly when connected |
| `ConnectionWindow.EventsDecide` | mdm-client/app/src/main/java/com/styly/mdmclient/ConnectionScheduler.kt:52-118 | at every moment of a run: when a window opens, a retry is armed, an attempt starts and silence begins, and that a healthy connection is left alone |
| `ConnectionWindow.SilenceLasts` | mdm-client/app/src/main/java/com/styly/mdmclient/ConnectionScheduler.kt:115-118 | until the network is available again no attempt starts, no timer is pending and no socket is open |
| `ConnectionWindow.ZeroRetryIsUnbounded` | mdm-client/app/src/main/java/com/styly/mdmclient/ConnectionScheduler.kt:77-92 | a window of at least a millisecond with a zero retry interval makes any number of attempts |
| `ConnectionWindow.FireKeepsInv` | mdm-client/app/src/main/java/com/styly/mdmclient/WebSocketManager.kt:357-387 | a timer that fires, first due first and ties in post order, keeps attempts a retry interval apart and before the deadline |
| `Eocd.FindEocd` | mdm-server/styly_mdm/integrity.py:36-52 | the greatest offset of the tail that holds an end record, and failure exactly when there is none |
| `Eocd.CentralDirectory` | mdm-server/styly_mdm/integrity.py:55-81 | reading only the last 22 + 65535 bytes finds the last record of the whole file, fails exactly when there is none, and covers the bytes from the directory's offset to the end |
| `Eocd.TailDecides` | mdm-server/styly_mdm/integrity.py:64-70 | whether a record starts at an offset of the file is decided by the tail |
| `Eocd.ReadFrom` | mdm-server/styly_mdm/integrity.py:74-80 | the chunks together are the file from the offset on |
| `Journal.RoundTrip` | mdm-client/app/src/main/java/com/styly/mdmclient/UpdateJournalCodec.kt:20-83 | for any events with any text, parsing the journal yields exactly the last 80 in order |
| `Journal.AppendedIsRead` | mdm-client/app/src/main/java/com/styly/mdmclient/UpdateJournalCodec.kt:20-45 | appending to any text, however damaged, is read back last, and a damaged line costs itself only |
| `Journal.AppendKeeps` | mdm-client/app/src/main/java/com/styly/mdmclient/UpdateJournalCodec.kt:20-28 | the lines of the new journal are the last 80 of the old ones and the new one |
| `Journal.LineYields` | mdm-client/app/src/main/java/com/styly/mdmclient/UpdateJournalCodec.kt:31-45 | what a line yields: nothing without a tab or a readable time, otherwise its first three fields |
| `Journal.UnknownEscapesStay` | mdm-client/app/src/main/java/com/styly/mdmclient/UpdateJournalCodec.kt:62-83 | an escape the client does not write keeps both of its characters |
| `Journal.Append` | mdm-client/app/src/main/java/com/styly/mdmclient/UpdateJournalCodec.kt:20-28 | the loop that drops old lines keeps the newest 80 |
| `Journal.UnescapeEscape` | mdm-client/app/src/main/java/com/styly/mdmclient/UpdateJournalCodec.kt:48-83 | unescaping undoes escaping on every text |
| `Journal.EscapedIsPlain` | mdm-client/app/src/main/java/com/styly/mdmclient/UpdateJournalCodec.kt:48-60 | escaped text has no tab, line feed or carriage return |
| `Journal.EscapeText` | mdm-client/app/src/main/java/com/styly/mdmclient/UpdateJournalCodec.kt:48-60 | the builder loop escapes character by character |
| `Journal.UnescapeText` | mdm-client/app/src/main/java/com/styly/mdmclient/UpdateJournalCodec.kt:62-83 | the index loop reads escapes in pairs and keeps unknown ones |

## Left out

- SQLite, threads under the store, fsync and AtomicFile: a transaction or a save happens as a whole or not at all.
- Each transaction and each handler reads the clock once; the few that read it twice in a row are modelled with one value, except the client's startup, which loads and saves at two times.
- `aggregate_device_states`, `list_snapshots`, the artifact table and snapshot rendering: counting and reading only.
- `mark_dispatching` and `mark_reconciling` as separate calls: the first has no caller, the second is `transition_device` with one target.
- Request canonicalisation, destination paths and file name cleaning: `CreateJob` receives distinct targets and at least one.
- JSON text: messages are objects with enumerated keys; what java.util.UUID and java.net.URI accept is a parameter; numbers are integers.
- The texts of the client's rejections and the shape of its answers to an old server without job identities.
- The work directory clean-up and the worker itself: the worker is started once and calls back with results of its own command.
- Waiters, semaphores, sessions and transfers of the scheduler and the runtime: only the store steps they lead to occur, in any order.
- Snapshot visibility of fences: replacing a job fence by an opaque one can change what an old terminal job shows without a new revision, so revisions are stated over jobs and their rows.
- DbWorker.ClosingCompletes: the five-second join of `close` is not modelled, the thread may still be working when it returns.
- Mirror.Destination.Apply: single file operations on a path that can be copied or deleted succeed, no other process changes the tree, and links are told apart from what they point to.
- ConnectionWindow.TrafficIsBounded: speaks of the times attempts are due; a looper that runs late starts them late by as much. Stale outcomes of cancelled sockets are dropped before they reach the scheduler.
- Eocd.CentralDirectory: SHA-256 is left out, the contract gives the bytes that are hashed.
- Journal.RoundTrip: timestamps are 64-bit; of the digits other than ASCII that Kotlin also reads nothing is said.
- The rest of the server (installs, self-update, labels, groups, discovery) and of the client (services, kiosk, the PICO SDK): fan-out, plumbing and foreign calls.
