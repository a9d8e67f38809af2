# Kestral in Dafny

Kestral is a host for small apps. Its kernel keeps a registry of apps, an append-only run ledger, a broker for
permission grants and an artifact store; every use of a capability goes through it, and everything it decides is
committed to a store before it becomes visible. This project models the kernel and the parts of the host that are
built on it, and proves what they promise.

## How the model is built

The kernel is a value (`KernelState.Kernel`): registry, ledger, broker, artifacts, handlers, pending invocations,
cancellation flags, the phase tokens callers hold, the recovery flag, and the store with a script of its future
answers (committed, not committed, indeterminate with or without effect). Each operation is a function from a kernel
and a clock reading to the next kernel and a reply (`ActionPath`, `Lifecycle`, `Recovery`). A history is any sequence
of such calls, restarts included (`Runs.Run`). `KernelObject.LiveKernel` is the same kernel as the object it is:
mutable fields, a store it commits to, loops over its tables. Each of its methods is proved equal to the function of
the same operation, and driving the object through any calls, restarts included, is proved to be a history
(`KernelObject.LiveKernel.Drive`); `KernelObject.Session` states the theorems about histories of the object itself.

Three conventions:

- A manifest value stands for its own content hash. Ids are naturals from a counter that advances even when a commit
  fails. Grants are a sequence in the order of issuance, which is the broker's order as long as the wall clock does not
  run backwards.
- Ledger records carry the id of the prepared invocation they belong to. The kernel does not store it and no operation
  reads it; it exists so that theorems can speak of "the records of one invocation". A restart drops these ids.
- A kernel without a store behaves as one whose store always commits.

The other modules follow the same pattern: code that updates things in place is a class or a method with loops, proved
against functions on values whose properties are then lemmas.

## The main results

- **Conservation of invocations.** Over every history and every store, an invocation has at most one terminal record
  and none while it is pending; unless recovery is required, it is pending or has exactly one
  (`Runs.Conservation`).
- **Durable refinement.** The store equals the projection of memory, or recovery is required and the store holds the
  last candidate; once required, recovery stays required and nothing durable moves before a restart; a failed
  lifecycle step leaves memory as it was (`Runs.DurableRefinement`, `Runs.RecoveryIsForever`,
  `Runs.FailedStepKeepsMemory`).
- **No late result.** Dispatch, artifacts and completions happen only while the run, both apps, the provider's
  content, the grant, the deadline and the cancellation flag are as preparation left them, and after the recorded
  approval if one was asked (`NoLateResult.DispatchesInTime`, `NoLateResult.ResultsInTime`,
  `NoLateResult.HeldSincePreparation`).
- **Consent.** Whether a prompt is raised is decided exactly by the grant and by a click in the provider's own surface
  for a bounded effect (`Consent.PromptedIff`); over every history, work whose grant requires approval is dispatched and
  completed only after a recorded yes, or on such a click (`Consent.ExecutesWithConsent`). A no is final, and the
  user's answer is the one authorizing acts on (`Decisions.DenialIsFinal`, `Decisions.AnswerDecides`); every approval,
  completion and artifact of a session goes back to an answer given and a result returned
  (`Decisions.RecordsGoBackToCalls`).
- **Every record has its warrant.** Over every history, each record a call appends is one that call may write about that
  run or invocation in that state (`Attribution.EveryRecordIsWarranted`).
- **Authority.** Pending work stays within its grant, resource by resource (`Coverage.WorkStaysWithinItsGrant`), and the
  broker picks the earliest of the quietest usable grants (`Coverage.ChecksQuietestFirst`). No grant and no revocation
  is ever lost, and what a revocation or an uninstall takes away stays away, restarts and lost commits included
  (`LastingAuthority.NothingIsLost`, `LastingAuthority.ResourceIsOutOfReach`,
  `LastingAuthority.UninstalledAuthorityIsGone`). Every artifact was stamped by work whose provider had declared its
  type (`Artifacts.ArtifactsAreDeclared`).
- **Outcomes.** Against a store that commits, exactly which calls succeed and what they then record, for every operation
  (`Admission`, `Outcomes`, `Installing`); a new app gets exactly what the user granted
  (`Installing.InstalledAsDecided`); every error names a condition that holds (`Errors.ErrorsAreWarranted`).
- **Startup.** A restart accepts exactly the states whose manifests, grants, artifacts and ledger positions are sound in
  terms that name none of its checks (`StartupChecks.BootableIff`), and adds only closing records of open runs
  (`StartupChecks.RestartAppends`).
- **Provenance.** Every state any history commits passes the artifact, grant and completion checks of a restart
  (`Runs.DurableRefinement`), and the restart's loops decide exactly those checks
  (`RecoveryCheck.ValidateRecoveredState`).
- **Restart closes everything and is idempotent** (`Recovery.RestartClosesEverything`,
  `Recovery.SecondRestartAppendsNothing`).
- **Grant reconciliation** (`Broker.ReconcileOutcome`, `LifecycleInvariant.GrantsReported`).
- **What the store holds**, during recovery too, follows the protocol: at most one terminal record per invocation, and
  no open work in a run that ended (`Runs.StoredWorkIsSettled`).
- **App updates** are atomic across code and data: cut short anywhere, any number of times, with the host restarted in
  between, an update ends with the target's code and data, or with the old code and data, or can still be taken up
  (`AppUpdate.UpdateWithRestarts`); an attempt without interruption ends it from every phase of the journal
  (`AppUpdate.RecoverManagedAppTransition`). **App data** survives crashes anywhere in a transition
  (`AppData.AnyTransition`). **Manager records** agree with their files (`AppManager.Manager`).
- **The chat loop** is well formed whenever it generates, tries every call that can be made in order, and ends
  (`ChatLoop.PlainChat.PrepareNext`, `ChatLoop.PlainChat.QueueToolCalls`, `ChatLoop.RunSession`). **Descendants** are the transitive closure, found in one pass on kernel ledgers
  (`Descendants.DescendantRunIds`, `Descendants.OnePassIsClosure`). **Framing**: quoting, line reading and server-sent
  events read back what was written (`WindowsQuoting.ArgumentsRoundTrip`, `LineReader.ReadAllLines`,
  `Sse.PayloadsRoundTripIff`).

## Where the code does not do what it promises

The comments and documents say that a restart accepts what the kernel wrote, that no run is leaked, and that every
phase of an app update can be resumed. Each fails in a few cases, shown by a history, a call sequence or the contract of
one operation, and each case has a condition that decides exactly when it happens.

1. *A click taken for approval.* A direct action on the app's own surface with a bounded effect, under a grant that
   requires approval, is recorded as begun when it is prepared and again when it is authorized. The replay at restart
   counts two invocations and one completion, and refuses the ledger once the run has ended
   (`Counterexamples.ClickCannotRestart`). Dispatching unprompted work is safe exactly if its grant does not require
   approval (`RestartConditions.DispatchSafeIff`), a surface action exactly if its click is not taken for approval
   (`RestartConditions.SurfaceSafeIff`), and the calls that carry it to its end leave a store that can be restarted
   from exactly then (`RestartConditions.SurfaceRestartIff`).
2. *Two invocations of one run, capability and data scope.* Cancellations and refusals are replayed by capability and
   data scope only, so they may close the wrong one (`Counterexamples.TwinsCannotRestart`). Which open work can be
   finished in every way is decided by `ReplayAgreement.ReplaysForeverIffSlotsSafe`, and whether an attempt keeps it so
   by `RestartConditions.PreparingSafeIff`. In terms of kernel calls: a refused attempt and the end of its run leave a
   store that can be restarted from exactly if the slot had no pending work (`RestartConditions.RefusalRestartIff`),
   beside work that waits for approval there is always a way on that breaks the store
   (`TwinPrompts.WaitingTwinBreaks`), and so there is beside work that executes under an older grant which would be
   used again once the newer one is revoked (`TwinGrants.ExecutingTwinBreaks`).
3. *A provider reinstalled without a capability that another manifest asks for.* The manifest pass of a restart then
   fails (`Counterexamples.ReinstallCannotRestart`). An install leaves a store that can be restarted from exactly if
   it covers its dependents (`RestartConditions.InstallRestartIff`).
4. *A chat cancelled between preparing and approval.* If someone else's preparation reaped the reservation first,
   aborting it fails and the child run stays open (`Counterexamples.AbortFindsNothing`). Aborting fails exactly if the
   reservation is gone, which after another preparation means it was cancelled or late
   (`Reservations.AbortFailsIff`, `Reservations.ReservationGoneIff`), and cleaning up leaves the run active in the
   kernel exactly then (`Reservations.CleanUpLeavesOpenIff`). A session leaves a run open exactly if one of the
   rounds it reached was cancelled in that state (`ChatDriver.ExecutePlainSession`, `ChatDriver.ExecuteAgentSession`).
5. *A program path with a quote, or a quoted one that ends in a backslash*, is not read back by the program-name rules
   of CommandLineToArgvW (`WindowsQuoting.BackslashComesBackTwice`, `WindowsQuoting.ProgramRoundTripIff`); arguments
   always are.
6. *An app-data migration that fails.* The rollback is recorded in a phase in which loading the journal demands digests
   that were never taken, so if the rollback is itself interrupted, startup rejects the journal
   (`AppUpdate.FailedMigrationBlocksStartup`). `AppUpdate.ContinueJournaledTransition` says for one attempt exactly when
   that happens (`AppUpdate.RollingBackAcceptedIff` is the check it reads), and `AppUpdate.UpdateWithRestarts` for any
   number of them.
7. *Pruning data backups interrupted* after the first directory was set aside and before the document follows leaves a
   document that does not load (`AppData.InterruptedPruning`); `AppData.AppDataStore.PruneBackups` says for which
   interruptions.
8. *An update whose journal cannot be written* takes its added revision back; memory and file disagree
   (`AppManager.RevisionNotTakenBack`) exactly if that second write replaced the file but could not say so
   (`AppManager.Manager.BeginJournaledTransition`). *Uninstalling an app* does not look at the journal: a pending
   transition can no longer be resumed (`AppManager.UninstalledDuringUpdate`) exactly if it is that app's, the app is
   staged for uninstall, its files could be removed and its record goes from the file
   (`AppManager.Manager.FinishUninstall`).

`CarefulRuns.CarefulAlwaysBoots` puts 1 to 3 together: over every history whose calls meet those conditions, with any
store answers and restarts in between, the store can always be restarted from.

## Model

| member | source | states |
|---|---|---|
| Ledger.AppendBatch | crates/kernel/src/services/ledger.rs:243-266 | Staging touched runs in a second index gives the same result as appending one by one, and a bad event anywhere rejects the whole batch. |
| Ledger.AppendAllSound | crates/kernel/src/services/ledger.rs:272-313 | Whatever is appended without starting runs keeps the ledger one that restoring accepts, with a run index equal to the replayed one. |
| Ledger.AppendClosing | crates/kernel/src/kernel.rs:1099-1113 | Cancelling work of active runs and then ending distinct active runs is always admissible as one batch, and deactivates exactly those runs. |
| ActionLog.ReplayActionState | crates/kernel/src/services/ledger.rs:477-631 | The pass over stored records computes the pairing by run and key, and fails exactly where that does. |
| ActionLog.TerminalsMatchPhase | crates/kernel/src/kernel.rs:1153-1666 | In a ledger that follows the protocol an invocation has one terminal record if it is closed and none otherwise. |
| ActionLog.ApprovedBeforeExecuting | crates/kernel/src/kernel.rs:1317-1399 | A prompted invocation that executes has its approval recorded after its request. |
| ReplayAgreement.AgreeStep | crates/kernel/src/services/ledger.rs:477-674 | Under the discipline, one more record keeps pairing by key and following by id in agreement. |
| ReplayAgreement.ReplaysForeverIffSlotsSafe | crates/kernel/src/services/ledger.rs:477-674 | Open work can be finished in every order with a replayable ledger exactly if open invocations sharing run, capability and data scope all execute under one grant. |
| ReplayAgreement.OpeningSafeIff | crates/kernel/src/kernel.rs:1242-1276 | Whether beginning this work keeps that property is decided by the open work of the same run, capability and data scope, both ways. |
| ReplayAgreement.LoneRefusalSafeIff | crates/kernel/src/kernel.rs:1194-1208 | A refused attempt is harmless for later restarts exactly if no open work of its run has its capability and data scope. |
| DoubleInvocation.DoublyBegunCannotRestart | crates/kernel/src/services/ledger.rs:528-552 | After a second record that work began, every continuation that finishes work and ends the run is rejected. |
| Settlement.ClosersSettle | crates/kernel/src/services/ledger.rs:318-342 | One cancellation per outstanding key empties every list, whichever key each cancellation hits. |
| Settlement.EndedRunsAreSettled | crates/kernel/src/services/ledger.rs:618-627 | In every ledger a restart accepts, no ended run has open work. |
| Broker.Check | crates/kernel/src/services/broker.rs:150-194 | The chosen grant is live, covers the request and is least interactive; a denial says no grant covers, all are revoked, or all have expired. What covering means is spelled out in Coverage. |
| Broker.DedupPrompts | crates/kernel/src/kernel.rs:671-685 | One prompt per distinct authority, none lost. |
| Broker.ReconcileManifestGrants | crates/kernel/src/kernel.rs:2213-2256 | The loop computes the reconciliation, and reports an issuance exactly if an id was drawn. |
| Broker.ReconcileOutcome | crates/kernel/src/kernel.rs:2213-2256 | A request is answered exactly if a live grant matched it or its prompt was approved; equal requests get one grant; nothing is revoked; new grants are one per distinct approved authority that lacked one. |
| KernelState.Offer | crates/kernel/src/kernel.rs:2407-2439 | Memory may adopt a candidate only after a definite commit; nothing is offered once recovery is required; otherwise the store changed only if it holds the candidate. |
| Provenance.ValidatedAppend | crates/kernel/src/kernel.rs:2441-2556 | Records other than productions never disturb what was validated. |
| RecoveryCheck.ValidateRecoveredState | crates/kernel/src/kernel.rs:2441-2556 | The loops accept a stored state exactly if productions are unique, match the artifacts, each is backed by its grant and its block's completion, and live grants have installed apps. |
| RecoveryCheck.IndexProductions | crates/kernel/src/kernel.rs:2449-2469 | The index exists exactly if no artifact is produced twice, and holds each production record. |
| RecoveryCheck.CheckArtifact | crates/kernel/src/kernel.rs:2475-2534 | The check of one artifact accepts exactly what its production record, grant and completion vouch for. |
| RecoveryCheck.RestoreLedger | crates/kernel/src/services/ledger.rs:272-313 | The pass over stored records accepts exactly the well-formed ones that can be paired up, with the run index they imply. |
| RecoveryCheck.CheckManifests | crates/kernel/src/kernel.rs:563-570 | The loop accepts exactly the registries whose manifests still pass. |
| RecoveryCheck.CheckStored | crates/kernel/src/kernel.rs:549-571 | All passes together accept exactly the states a restart can boot. |
| KernelInvariant.InitInv | crates/kernel/src/kernel.rs:524-540 | A new kernel satisfies the invariant. |
| KernelInvariant.EntryFacts | crates/kernel/src/kernel.rs:1280-1302 | A pending invocation has an active run of its acting app, installed apps, a bound handler, a covering grant, and the ledger phase its state says. |
| ActionInvariant.StartRunInv | crates/kernel/src/kernel.rs:1072-1097 | Starting a run keeps the invariant, whatever the store answers. |
| ActionInvariant.EndRunInv | crates/kernel/src/kernel.rs:1099-1113 | Ending a run closes its pending work in the same commit and keeps the invariant. |
| ActionInvariant.ReapInv | crates/kernel/src/kernel.rs:2593-2619 | Reaping cancelled and late work keeps the invariant. |
| ActionInvariant.PrepareInv | crates/kernel/src/kernel.rs:1153-1309 | Preparing keeps the invariant on every branch, refusals and failures included. |
| ActionInvariant.SurfaceActionInv | crates/kernel/src/kernel.rs:1822-1865 | A surface action keeps the invariant, including the run it must not leak on failure. |
| ActionInvariant.AuthorizeInv | crates/kernel/src/kernel.rs:1317-1462 | Authorizing keeps the invariant, and the unbound-handler error cannot occur. |
| ActionInvariant.CloseStaleInv | crates/kernel/src/kernel.rs:1629-1666 | Closing work that may not proceed keeps the invariant. |
| ActionInvariant.AbortInv | crates/kernel/src/kernel.rs:1573-1591 | Aborting prepared or authorized work keeps the invariant. |
| ActionInvariant.OutsideInv | crates/kernel/src/kernel.rs:371-468 | Approval, execution, dropped tokens and cancellation requests keep the invariant. |
| CompletionInvariant.CompleteInv | crates/kernel/src/kernel.rs:1670-1793 | Completing commits artifacts, production records and completion together and leaves a state a restart validates. |
| CompletionInvariant.FinalizeInv | crates/kernel/src/kernel.rs:1467-1550 | Finalizing keeps the invariant on every branch. |
| Lifecycle.PrepareInstallOk | crates/kernel/src/kernel.rs:603-740 | A prepared install has distinct prompts, each against the app itself or a provider whose content was recorded as present. |
| LifecycleInvariant.CommitGrantInv | crates/kernel/src/kernel.rs:1961-1990 | Committing a grant keeps the invariant. |
| LifecycleInvariant.RevokeInv | crates/kernel/src/kernel.rs:2008-2039 | Revoking one grant or all over a resource keeps the invariant. |
| LifecycleInvariant.CommitInstallInv | crates/kernel/src/kernel.rs:744-871 | Fresh install, rebind and replacement keep the invariant. |
| LifecycleInvariant.GrantsReported | crates/kernel/src/kernel.rs:781-822 | Every grant an install or rebind reports is live, held by the app, and over an installed provider. |
| LifecycleInvariant.UpgradeInv | crates/kernel/src/kernel.rs:879-918 | An in-place upgrade keeps pending work bound and the invariant. |
| LifecycleInvariant.UninstallInv | crates/kernel/src/kernel.rs:1033-1066 | Uninstalling closes the app's work and authority in one commit and keeps the invariant. |
| LifecycleInvariant.OthersSurvive | crates/kernel/src/kernel.rs:2621-2655 | Work between other apps stays valid when an app is removed or replaced. |
| Recovery.BootInv | crates/kernel/src/kernel.rs:549-584 | Reloading any restorable state, and closing what was open, establishes the invariant. |
| Recovery.ClosingSettles | crates/kernel/src/kernel.rs:574-581 | The closing batch of a restart is admissible, ends every run and leaves nothing outstanding. |
| Recovery.RestartClosesEverything | crates/kernel/src/kernel.rs:549-584 | A restart leaves no active run and no open work, keeps the stored ledger as a prefix and registry, grants and artifacts as they were, and the next restart accepts the result. |
| Recovery.SecondRestartAppendsNothing | crates/kernel/src/kernel.rs:573-583 | A second restart commits nothing and changes nothing. |
| Runs.StepInv | crates/kernel/src/kernel.rs:549-2665 | Every call, host event and restart keeps the invariant. |
| Runs.Conservation | crates/kernel/src/kernel.rs:1153-1666 | Over every history: at most one terminal record, none while pending, and exactly one once gone unless recovery is required. |
| Runs.DurableRefinement | crates/kernel/src/kernel.rs:2362-2439 | Over every history: the store equals memory's projection, or recovery is required and it holds the last candidate; either way a restart validates it. |
| Runs.StoredWorkIsSettled | crates/kernel/src/kernel.rs:2407-2439 | Over every history, during recovery too: the stored ledger has at most one terminal record per invocation and no open work in an ended run. |
| Runs.RecoveryIsForever | crates/kernel/src/kernel.rs:2407-2439 | Once recovery is required nothing durable changes before a restart. |
| Runs.FailedStepKeepsMemory | crates/kernel/src/kernel.rs:744-1066 | A failed grant, revocation, install, upgrade, uninstall or run end leaves registry, broker, ledger, handlers, pending work and flags as they were. |
| History.PrepareEvolves | crates/kernel/src/kernel.rs:1153-1309 | Preparing only appends, records no result, changes no reservation and reuses no id. |
| NoLateResult.NeverGone | crates/kernel/src/kernel.rs:1593-1627 | Revalidation never finds the run ended or an app missing, so the error fall-through of closing stale work is unreachable. |
| NoLateResult.DispatchesInTime | crates/kernel/src/kernel.rs:1317-1462 | In every reachable state an execution token is handed out only for work that may still proceed and was approved if asked. |
| NoLateResult.ResultsInTime | crates/kernel/src/kernel.rs:1467-1793 | In every reachable state a call that records an artifact or completion finalizes that invocation, which may still proceed and was approved earlier if asked. |
| NoLateResult.PreparedUnder | crates/kernel/src/kernel.rs:1277-1302 | A reservation holds the provider's content, the grant the broker chose and the deadline of that moment. |
| NoLateResult.HeldSincePreparation | crates/kernel/src/kernel.rs:1593-1627 | While it stays pending, a reservation keeps content, grant and deadline. |
| CarefulRuns.InstallPassesIff | crates/kernel/src/kernel.rs:2276-2319 | An install keeps the manifest pass exactly if it offers every single capability other manifests ask of it. |
| CarefulRuns.CarefulAlwaysBoots | crates/kernel/src/kernel.rs:549-584 | Over every history of careful calls, with any store answers and restarts, the store passes every check of a restart. |
| RestartConditions.DispatchSafeIff | crates/kernel/src/kernel.rs:1386-1411 | Dispatching work that was begun without a prompt leaves a ledger that can be paired up however the work finishes, exactly if its grant does not require approval. |
| RestartConditions.PreparingSafeIff | crates/kernel/src/kernel.rs:1153-1309 | Preparing, refused or not, leaves a ledger that can be paired up however the kernel finishes open work, exactly if the caller's check on pending work of the slot holds and no click is taken for approval. |
| RestartConditions.SurfaceSafeIff | crates/kernel/src/kernel.rs:1822-1865 | For a surface action that comes down to: its click is not taken for a required approval. |
| RestartConditions.SurfaceRestartIff | crates/kernel/src/kernel.rs:1822-1865 | Carried by kernel calls to the end of its run, a surface action leaves a store a restart accepts exactly then. |
| RestartConditions.RefusalRestartIff | crates/kernel/src/kernel.rs:1194-1208 | A refused attempt followed by the end of its run leaves a store a restart accepts exactly if no pending work of the run had its capability and data scope. |
| HeldWork.ReachableHeld | crates/kernel/src/kernel.rs:371-468 | Over every history: pending work that is not cancelled has the token for its next step with its caller, and no id is flagged before it is used. |
| TwinPrompts.WaitingTwinBreaks | crates/kernel/src/services/ledger.rs:572-594 | From every state of a session: work prepared while other work of its run, capability and data scope waits for approval can be carried on, by calls that are careful themselves, to a store no restart accepts. |
| TwinGrants.ExecutingTwinBreaks | crates/kernel/src/services/ledger.rs:572-594 | The same beside work that executes under another grant, if that grant is used again once the newer one is revoked. |
| RestartConditions.InstallRestartIff | crates/kernel/src/kernel.rs:744-871 | An install leaves a store a restart accepts exactly if it offers every single capability other manifests ask of it. |
| Reservations.AbortFailsIff | crates/kernel/src/kernel.rs:1573-1591 | With a store that commits, aborting prepared work fails exactly if the kernel no longer holds it. |
| Reservations.ReservationGoneIff | crates/kernel/src/kernel.rs:2593-2619 | After anyone's preparation, prepared work can no longer be aborted exactly if it was cancelled or late by then; its run stays active. |
| Reservations.CleanUpLeavesOpenIff | host/src-tauri/src/chat_runtime.rs:659-679 | Aborting prepared work and then ending its run leaves the run active in the kernel exactly if the kernel no longer held the work. |
| Counterexamples.ReinstallCannotRestart | crates/kernel/src/kernel.rs:568-570 | A history of installs after which the store fails the manifest pass. |
| Counterexamples.ClickCannotRestart | crates/kernel/src/kernel.rs:1242-1276 | A history with one clicked action after which the ledger is rejected. |
| Counterexamples.TwinsCannotRestart | crates/kernel/src/services/ledger.rs:572-594 | A history with two prompts for one slot after which the ledger is rejected. |
| Counterexamples.AbortFindsNothing | host/src-tauri/src/chat_runtime.rs:659-679 | A history after which aborting one's own prepared work fails, nothing is pending or held, and its run is still active. |
| Coverage.DeniedIff | crates/kernel/src/primitives/grant.rs:130-148 | The broker denies exactly if no grant was issued to the holder for that provider and capability that reaches every resource asked for and is neither revoked nor expired. |
| Coverage.DenialReasons | crates/kernel/src/services/broker.rs:150-183 | The reason of a denial: nothing issued entitles the holder, all that does is revoked, or what is not revoked has expired. |
| Coverage.ChecksQuietestFirst | crates/kernel/src/services/broker.rs:176-194 | Of the usable grants the earliest issued among those that interrupt the user least is picked, and approval is asked for exactly if it requires it. |
| Coverage.WorkStaysWithinItsGrant | crates/kernel/src/primitives/grant.rs:130-148 | In every reachable state pending work acts for its grant's holder, within its provider and capability, and every resource it names is named by the grant unless that reaches all. |
| Attribution.EveryRecordIsWarranted | crates/kernel/src/kernel.rs:1072-2665 | In every reachable state, whatever call comes next, each record it appends is one this call may write, about a run or invocation it concerns, in a state that calls for it. |
| Consent.PromptedIff | crates/kernel/src/kernel.rs:1181-1276 | Preparing raises a prompt exactly if the grant requires approval and it is not a click in the provider's own surface for something that only reads or writes locally; what it did is recorded last. |
| Consent.SurfaceOpens | crates/kernel/src/kernel.rs:1822-1865 | The same for a surface action, whose click counts exactly if the acting app is the provider. |
| Consent.ExecutesWithConsent | crates/kernel/src/kernel.rs:1181-1185 | Over every history: work whose grant requires approval is dispatched, and its results recorded, only after its approval was requested and granted, or if the acting app is the provider and the declared effect only reads or writes locally. |
| Decisions.DenialIsFinal | crates/kernel/src/kernel.rs:374-379 | Over every history: after a no, until the next restart, the invocation is never recorded as approved, begun, productive, completed or failed, and never dispatched. |
| Decisions.AnswerDecides | crates/kernel/src/kernel.rs:1340-1385 | However much else is called in between: authorizing after a no records exactly the denial and refuses in the user's name, after a yes it records the approval. |
| Decisions.RecordsGoBackToCalls | crates/kernel/src/kernel.rs:374-452 | In every session, each recorded approval or denial is an answer given to that invocation, each completion follows a valid result returned for it, each artifact is a valid draft of one. |
| Outcomes.FinalizeOutcome | crates/kernel/src/kernel.rs:1467-1550 | Finalizing completes exactly if the work may go on and its result and every draft are valid and of types its provider declared; otherwise exactly one record says cancelled, failed or why it was closed, and artifacts stay as they were. |
| Outcomes.CompleteOutcome | crates/kernel/src/kernel.rs:1670-1793 | Completing adds one production record and one artifact per draft, in order, with the work's own provenance, and then the completion. |
| Outcomes.AuthorizeOutcome | crates/kernel/src/kernel.rs:1317-1462 | Unless the user said no, authorizing dispatches exactly the work that may go on, and says with one record why other work is closed. |
| Outcomes.StaleOutcome | crates/kernel/src/kernel.rs:1593-1666 | Work that may not go on is closed by one record: a refusal with the broker's reason if nothing entitles it any more, else a cancellation. |
| Outcomes.ExecuteOutcome | crates/kernel/src/kernel.rs:409-452 | The handler is entered exactly if the work is not cancelled and not past its deadline. |
| Outcomes.AbortOutcome | crates/kernel/src/kernel.rs:1573-1591 | Aborting records one cancellation exactly if the kernel still holds the work. |
| Outcomes.CancellationStops | crates/kernel/src/kernel.rs:2044-2050 | Cancelling a run reaches exactly its own pending work, which may not proceed at any later point of the session. |
| Admission.StartRunOutcome | crates/kernel/src/kernel.rs:1072-1097 | A run starts exactly if its app is installed and its parent, if any, is an active run of that app; nothing else changes. |
| Admission.EndRunOutcome | crates/kernel/src/kernel.rs:1099-1113 | An active run ends the way it was asked to, with exactly its own pending work cancelled and flagged; any other call changes nothing. |
| Admission.ReapOutcome | crates/kernel/src/kernel.rs:2593-2619 | Reaping leaves exactly the work that is neither cancelled nor late. |
| Admission.PrepareOutcome | crates/kernel/src/kernel.rs:1153-1309 | Which attempts are prepared, refused or rejected, and the reservation, grant and deadline of those prepared. |
| Admission.SurfaceOutcome | crates/kernel/src/kernel.rs:1822-1865 | A surface action leaves its own run open exactly if the attempt was not an error, and other runs as they were. |
| Installing.GrantOutcome | crates/kernel/src/kernel.rs:1961-1990 | A grant is issued exactly if it was approved, both apps are unchanged and the request is sound; it embodies just what was asked, for as long as was asked. |
| Installing.PlanOutcome | crates/kernel/src/kernel.rs:603-740 | When an install is planned, in which mode, and exactly which authorities it asks about. |
| Installing.InstallOutcome | crates/kernel/src/kernel.rs:744-871 | When an install commits, and exactly what it installs, binds, revokes and closes. |
| Installing.RequestsAnswered | crates/kernel/src/kernel.rs:2213-2256 | Each request is answered by a grant of just its authority exactly if its prompt was approved or such a grant was live and the app is not replaced. |
| Installing.InstalledAsDecided | crates/kernel/src/kernel.rs:603-871 | A new app gets exactly the authorities the user approved, prompt by prompt. |
| Installing.UpgradeOutcome | crates/kernel/src/kernel.rs:879-918 | An upgrade succeeds exactly if nothing but the version differs, and changes nothing but the manifest. |
| Installing.UninstallOutcome | crates/kernel/src/kernel.rs:1033-1066 | An installed app can always be uninstalled; its runs end and others go on. |
| LastingAuthority.NothingIsLost | crates/kernel/src/services/broker.rs:115-230 | Over every continuation, restarts and lost commits included, no grant and no revocation is lost. |
| LastingAuthority.ResourceRevocation | crates/kernel/src/kernel.rs:2021-2039 | Exactly the grants that name the resource are revoked, and exactly the pending work under them is asked to stop. |
| LastingAuthority.GrantRevocation | crates/kernel/src/kernel.rs:2008-2019 | The same for one grant. |
| LastingAuthority.UninstallRevocation | crates/kernel/src/services/broker.rs:204-226 | Exactly the grants the app held and those over it are revoked, and exactly its work and the work it serves is closed and flagged. |
| LastingAuthority.ResourceIsOutOfReach | crates/kernel/src/kernel.rs:2021-2039 | After the grants over a resource are revoked, no work under a grant issued by then that names it may ever proceed, unless its grant reaches all resources. |
| LastingAuthority.UninstalledAuthorityIsGone | crates/kernel/src/kernel.rs:1033-1066 | After an uninstall, no work under a grant the app held or over it may ever proceed, reinstalled or not. |
| Artifacts.ArtifactsAreDeclared | crates/kernel/src/kernel.rs:1758-1793 | Over every history, every artifact in memory or in the store was stamped by finalizing valid work whose provider content declared its type, and names that work's run, capability and grant. |
| StartupChecks.WellFormedIff | crates/kernel/src/services/ledger.rs:272-313 | Restoring accepts a ledger exactly if at every position runs start once, children under an open parent of their app, and everything else happens in an open run. |
| StartupChecks.BootableIff | crates/kernel/src/kernel.rs:549-571 | A restart accepts a state exactly if manifests, grants, ledger positions and artifacts are sound in terms that name none of the checks, and the action records pair up. |
| StartupChecks.RestartAppends | crates/kernel/src/kernel.rs:573-583 | A restart adds only cancellations in runs that were open, and then one interrupted end for each of them. |
| Errors.ErrorsAreWarranted | crates/kernel/src/kernel.rs:591-2319 | Against a store that commits, every error answered names a condition that holds of the state and the call. |
| ChatLoop.TriesNext | host/src-tauri/src/chat_app.rs:1697-1760 | Trying the first queued call keeps every response's calls in their turns. |
| ChatLoop.TakesCalls | host/src-tauri/src/chat_app.rs:1933-1951 | Taking a response queues exactly its makeable calls behind everything tried. |
| ChatDriver.PlainRound | host/src-tauri/src/chat_runtime.rs:592-875 | One round stops or goes on exactly as the work that was next, the preparation and the result decide. |
| ConversationHistory.HistoryMessageMeans | host/src-tauri/src/chat_app.rs:1342-1372 | A stored message is replayed exactly if it has text and is settled, words as they are and tool statuses marked. |
| AppData.DropsOldest | host/src-tauri/src/app_data.rs:316-345 | Pruning drops as many backups as exceed the retention, the oldest ones, and never the active revision. |
| AppUpdate.AcceptedIff | host/src-tauri/src/app_manager/update_journal.rs:61-130 | Which journals startup loads, phase by phase. |
| KernelObject.Store.Commit | crates/kernel/src/durable.rs:45-58 | The store overwrites what it holds on a commit and, unknown to the caller, possibly on an indeterminate one. |
| KernelObject.LiveKernel.constructor | crates/kernel/src/kernel.rs:524-540 | A new kernel object stands for the initial kernel. |
| KernelObject.LiveKernel.CommitParts | crates/kernel/src/kernel.rs:2407-2439 | Refines Offer. |
| KernelObject.LiveKernel.RecordBatch | crates/kernel/src/kernel.rs:2374-2385 | Staging a batch in a second index, committing and adopting it refines Write. |
| KernelObject.LiveKernel.CancellationEvents | crates/kernel/src/kernel.rs:2581-2591 | The loop yields one cancellation per selected pending invocation, in id order. |
| KernelObject.LiveKernel.RemovePending | crates/kernel/src/kernel.rs:2635-2655 | The loop removes exactly the selected invocations and raises their flags. |
| KernelObject.LiveKernel.ReapCancelledPending | crates/kernel/src/kernel.rs:2593-2619 | Refines Reap. |
| KernelObject.LiveKernel.CancelPendingInvocationsForRun | crates/kernel/src/kernel.rs:2573-2579 | The loop raises the flag of every pending invocation of the run and no other. |
| KernelObject.LiveKernel.StartRun | crates/kernel/src/kernel.rs:1072-1097 | Refines StartRun. |
| KernelObject.LiveKernel.EndRun | crates/kernel/src/kernel.rs:1099-1113 | Refines EndRun. |
| KernelObject.LiveKernel.PrepareInvocation | crates/kernel/src/kernel.rs:1153-1309 | Refines Prepare, whose prompt and outcome Consent.PromptedIff and Admission.PrepareOutcome decide. |
| KernelObject.LiveKernel.PrepareSurfaceAction | crates/kernel/src/kernel.rs:1822-1865 | Refines SurfaceAction, whose prompt and outcome Consent.SurfaceOpens and Admission.SurfaceOutcome decide. |
| KernelObject.LiveKernel.AuthorizeInvocation | crates/kernel/src/kernel.rs:1317-1462 | Refines Authorize, whose outcome Outcomes.AuthorizeOutcome and Decisions.AnswerDecides decide. |
| KernelObject.LiveKernel.FinalizeCancelled | crates/kernel/src/kernel.rs:1629-1666 | Refines CloseStale. |
| KernelObject.LiveKernel.CompleteOutcome | crates/kernel/src/kernel.rs:1670-1736 | The loop stamps the drafts in order; refines Complete. |
| KernelObject.LiveKernel.CommitCompletion | crates/kernel/src/kernel.rs:2387-2405 | Refines CommitCompletion. |
| KernelObject.LiveKernel.FinalizeInvocation | crates/kernel/src/kernel.rs:1467-1550 | Refines Finalize, whose outcome Outcomes.FinalizeOutcome decides. |
| KernelObject.LiveKernel.AbortPending | crates/kernel/src/kernel.rs:1573-1591 | Refines Abort. |
| KernelObject.LiveKernel.CommitGrant | crates/kernel/src/kernel.rs:1961-1990 | Refines CommitGrant. |
| KernelObject.LiveKernel.RevokeGrants | crates/kernel/src/kernel.rs:2008-2039 | Refines RevokeAll. |
| KernelObject.LiveKernel.CommitInstall | crates/kernel/src/kernel.rs:744-871 | Refines CommitInstall. |
| KernelObject.LiveKernel.AdoptCandidate | crates/kernel/src/kernel.rs:933-1020 | Refines AdoptStaged. |
| KernelObject.LiveKernel.UpgradeInPlace | crates/kernel/src/kernel.rs:879-918 | Refines Upgrade. |
| KernelObject.LiveKernel.Uninstall | crates/kernel/src/kernel.rs:1033-1066 | Refines Uninstall. |
| KernelObject.LiveKernel.AwaitApproval | crates/kernel/src/kernel.rs:371-388 | Refines AwaitApproval: the answer carried is the one Decisions.AnswerDecides says authorizing acts on. |
| KernelObject.LiveKernel.ExecuteHandler | crates/kernel/src/kernel.rs:405-452 | Refines Execute. |
| KernelObject.LiveKernel.DropToken | crates/kernel/src/kernel.rs:389-404 | Refines DropToken. |
| KernelObject.LiveKernel.RevokeGrant | crates/kernel/src/kernel.rs:2008-2019 | Refines RevokeGrant; an unknown grant is an error. |
| KernelObject.LiveKernel.RevokeGrantsForResource | crates/kernel/src/kernel.rs:2021-2039 | Refines RevokeGrantsForResource. |
| KernelObject.LiveKernel.Restart | crates/kernel/src/kernel.rs:549-584 | The loops that check the store, the takeover and the closing batch together refine Restart. |
| KernelObject.LiveKernel.Perform | crates/kernel/src/kernel.rs:549-2665 | Any one call on the object is that step of a history. |
| KernelObject.LiveKernel.Drive | crates/kernel/src/kernel.rs:549-2665 | Any calls in sequence are a history, and keep the invariant. |
| KernelObject.Session | crates/kernel/src/kernel.rs:549-2665 | A new object driven through any calls and restarts: one terminal record per invocation that is gone, none while pending, and a store that equals memory or holds the last candidate. |
| ChatLoop.NothingOwedIsAnswered | host/src-tauri/src/chat_app.rs:1926-2008 | If nothing is owed, every assistant message's calls are answered exactly once, as a multiset, before the next assistant message. |
| ChatLoop.PlainChat.PrepareNext | host/src-tauri/src/chat_app.rs:1697-1868 | Prepares the first queued call, or the model while iterations last; only a refused call lets the session go on without executing, and it is answered; whenever the model is asked the transcript is well formed. |
| ChatLoop.PlainChat.FinalizeNext | host/src-tauri/src/chat_app.rs:1873-2016 | Which results end the session and how; a response's calls are taken in order and use up an iteration; a tool call is answered. |
| ChatLoop.PlainChat.QueueToolCalls | host/src-tauri/src/chat_app.rs:2028-2073 | Afterwards the queue holds the ids of exactly the known and readable calls, by position and in order, and the transcript one answer for each other call, in order. |
| ChatLoop.RunSession | host/src-tauri/src/chat_app.rs:1614-2016 | Whatever is answered, the session ends, generates at most as often as allowed, and tries every known and readable call of an accepted response in order, unless it ends before. |
| ChatDriver.RunChild | host/src-tauri/src/chat_runtime.rs:659-851 | A prepared child's run ends exactly once on every branch, except when it was cancelled and the kernel no longer holds its reservation; after a cancellation it is open exactly if it is active in the kernel. |
| ChatDriver.ExecutePlainSession | host/src-tauri/src/chat_runtime.rs:592-875 | The session goes on through every round before the last, and the reason it stops there is stated; when it returns, the parent and all children have ended, once each, exactly if no round it reached was cancelled after the kernel had let go of its reservation. |
| ChatDriver.ExecuteAgentSession | host/src-tauri/src/chat_runtime.rs:592-875 | The same for a delegated session. |
| Descendants.DescendantRunIds | host/src-tauri/src/chat_runtime.rs:1246-1268 | The loop ends and returns exactly the reflexive and transitive closure of the parent relation. |
| Descendants.OnePassIsClosure | host/src-tauri/src/chat_runtime.rs:1246-1268 | On a ledger the kernel restores, one pass already returns the closure. |
| Descendants.DescendantsShareApp | crates/kernel/src/kernel.rs:1072-1097 | All descendants act for the root's app. |
| ConversationHistory.BuildHistory | host/src-tauri/src/chat_app.rs:1256-1277 | The longest suffix of the shown messages within both limits, or the last message alone cut to exactly the limit. |
| ConversationHistory.CollectReplayable | host/src-tauri/src/chat_app.rs:1342-1372 | The loop keeps exactly the messages the model gets to see, by position and in order. |
| AppData.AppDataStore.StageCandidate | host/src-tauri/src/app_data.rs:125-157 | From any crash point the document loads and nothing of before changed; if it ends, the candidate is a copy of the source and the digest is the source's; a source that changes meanwhile is refused. |
| AppData.AppDataStore.CommitCandidate | host/src-tauri/src/app_data.rs:239-271 | Committing is one change; doing it again changes nothing. |
| AppData.AppDataStore.RollbackTransition | host/src-tauri/src/app_data.rs:273-314 | Rolling back is never refused during its transition; if it ends, document and directories are what they were before. |
| AppData.AppDataStore.DiscardCandidate | host/src-tauri/src/app_data.rs:364-374 | Only the candidate's directory is touched; if it ends, it is gone. |
| AppData.AppDataStore.RollBackUntilDone | host/src-tauri/src/app_data.rs:273-314 | However often a rollback is interrupted and repeated, once it ends everything is as before the transition. |
| AppData.AppDataStore.PruneBackups | host/src-tauri/src/app_data.rs:316-362 | The active revision never changes and no other directory is touched; if it ends, exactly the surplus backups are gone from document and disk; the document loads afterwards exactly if the interruption did not fall between setting the first aside and writing the document. |
| AppData.InterruptedPruning | host/src-tauri/src/app_data.rs:336-358 | Three revisions and a crash after the first directory was set aside: the document does not load. |
| AppData.AnyTransition | host/src-tauri/src/app_data.rs:430-450 | Through any sequence of staging, committing and rolling back, each cut short anywhere, every disk it leaves loads and holds what was there before, and a final rollback undoes everything. |
| Revisions.RetainRecentRevisions | host/src-tauri/src/app_manager.rs:793-823 | At most two of more than two revisions are kept: the active one if it was there, and the newest other. |
| AppManager.Manager.Load | host/src-tauri/src/app_manager.rs:633-680 | Startup takes over both files, exactly if the journal checks out. |
| AppManager.Manager.InstallRecord | host/src-tauri/src/app_manager.rs:1009-1018 | Records equal the file after every write outcome; a pending transition stays resumable. |
| AppManager.Manager.SetEnabledState | host/src-tauri/src/app_manager.rs:1029-1049 | Exactly this record's flag changes and its generation advances, in memory as in the file, after every write outcome; it succeeds exactly if the record is there, not being uninstalled, and already so or written; a pending transition stays resumable. |
| AppManager.Manager.BeginUninstall | host/src-tauri/src/app_manager.rs:1064-1101 | Exactly this record is staged with the choices made and its generation advances, in memory as in the file; it succeeds exactly if the record is staged already, or can be and is written; a pending transition stays resumable. |
| AppManager.Manager.FinishUninstall | host/src-tauri/src/app_manager.rs:1103-1152 | The record goes from memory exactly if it went from the file; a pending transition is lost exactly if it is this app's and the record goes. |
| AppManager.UninstalledDuringUpdate | host/src-tauri/src/app_manager.rs:1103-1152 | A call sequence from an empty manager after which a pending transition cannot be resumed. |
| AppManager.Manager.WriteUpdateJournal | host/src-tauri/src/app_manager.rs:2209-2244 | The journal in memory is the one on disk after every write outcome. |
| AppManager.Manager.BeginJournaledTransition | host/src-tauri/src/app_manager.rs:2285-2502 | A transition begins exactly if the record is as reviewed and its writes succeed; its journal fits the record and names the active revision; records and file agree unless taking the added revision back is indeterminate. |
| AppManager.RevisionNotTakenBack | host/src-tauri/src/app_manager.rs:2472-2494 | A call sequence from an empty manager after which records and file disagree. |
| AppManager.Manager.ClearCompletedJournal | host/src-tauri/src/app_manager.rs:2518-2532 | Only the journal of a transition that ended is removed. |
| AppManager.Manager.FinishJournaledRollback | host/src-tauri/src/app_manager.rs:2704-2725 | The revision the transition started from is active and kept; nothing else of this or any other record changes; whatever is written or not, records stay valid and the journal fits them. |
| AppManager.Manager.CommitRevisionTransition | host/src-tauri/src/app_manager.rs:2877-2907 | The target is active and kept together with the newest other revision; nothing else of this or any other record changes. |
| AppUpdate.CommitDataCandidate | host/src-tauri/src/app_manager.rs:2609-2656 | The candidate is committed only if source and candidate are what was validated, otherwise nothing changes; records, journal and data keep fitting together whatever fails. |
| AppUpdate.MarkDataCandidateValidated | host/src-tauri/src/app_manager.rs:2585-2607 | The journal records the digests of source and candidate. |
| AppUpdate.CommitJournaledTransition | host/src-tauri/src/app_manager.rs:2658-2676 | The switch ends with the target's code and data, or stays resumable; without write failures it ends exactly if the data loads and pruning has time to finish. |
| AppUpdate.BeginJournaledRollback | host/src-tauri/src/app_manager.rs:2678-2702 | The way back is recorded before the data goes back, and the old revision is still active throughout. |
| AppUpdate.RollingBackAcceptedIff | host/src-tauri/src/app_manager/update_journal.rs:61-130 | A journal on its way back is loaded again exactly if it has no data part or its candidate had been validated. |
| AppUpdate.RollBack | host/src-tauri/src/lib.rs:670-701 | A rollback restores code and data, or stays resumable. |
| AppUpdate.PrepareData | host/src-tauri/src/app_manager.rs:426-491 | The candidate is staged, migrated and digested with the source untouched, whatever the publisher's code leaves in the candidate. |
| AppUpdate.ContinueJournaledTransition | host/src-tauri/src/lib.rs:703-786 | An attempt completes only if migration and target succeed, goes back only if one fails, or stays resumable; the journal it leaves is loaded again exactly unless a migration failed and the way back was recorded. |
| AppUpdate.RecoverManagedAppTransition | host/src-tauri/src/lib.rs:788-832 | From every phase the same; without interruption the transition ends, except after a pruning that left data that does not load. |
| AppUpdate.UpdateWithRestarts | host/src-tauri/src/lib.rs:703-832 | Over any number of interrupted attempts and restarts: code and data both switched, both as before, or still resumable; startup rejects the journal exactly if an attempt was interrupted after its migration failed and the way back was recorded. |
| AppUpdate.FailedMigrationBlocksStartup | host/src-tauri/src/lib.rs:728-737 | A call sequence from an empty manager after which startup rejects the journal. |
| WindowsQuoting.QuoteWindowsArgument | crates/mcp-adapter/src/stdio.rs:1448-1479 | The loop computes the escaped text: backslashes doubled exactly where a quote follows. |
| WindowsQuoting.BuildCommandLine | crates/mcp-adapter/src/stdio.rs:1440-1445 | The quoted program followed by the quoted arguments. |
| WindowsQuoting.ArgumentsRoundTrip | crates/mcp-adapter/src/stdio.rs:1440-1479 | Parsing by the backslash and quote rules gives back every argument list, whichever way implementations treat doubled quotes. |
| WindowsQuoting.ProgramRoundTripIff | crates/mcp-adapter/src/stdio.rs:1440-1445 | The program name is given back exactly if it has no quote and, where quoted, no backslash at its end. |
| WindowsQuoting.BackslashComesBackTwice | crates/mcp-adapter/src/stdio.rs:1440-1479 | A quoted path that ends in a backslash is read back with two. |
| Utf8.EncodedIsWellFormed | crates/mcp-adapter/src/transport.rs:58-65 | Every encoding of scalar values is well-formed and decodes to them. |
| Utf8.WellFormedIsEncoded | crates/mcp-adapter/src/transport.rs:58-65 | Every well-formed byte string is the encoding of what it decodes to. |
| LineReader.ReadLineCapped | crates/mcp-adapter/src/transport.rs:29-56 | The result and the bytes left depend on the bytes alone, not on how they arrive, and no more than the cap is buffered. |
| LineReader.ReadAllLines | crates/mcp-adapter/src/transport.rs:29-65 | Repeated reading returns the split at newlines up to the first line over the cap or not UTF-8, and fails exactly there. |
| LineReader.SplitUnlines | crates/mcp-adapter/src/transport.rs:29-56 | Splitting undoes terminating lines with newlines. |
| Sse.NextSseData | crates/mcp-adapter/src/http.rs:451-479 | The next event depends on the bytes alone. |
| Sse.EventsReadBack | crates/mcp-adapter/src/http.rs:451-479 | Any sequence of blocks, with comments, other fields and stray blank lines, is read back as its events in order and then closed, exactly if the bytes since the last event stay within the cap. |
| Sse.PayloadsRoundTripIff | crates/mcp-adapter/src/http.rs:451-479 | Any sequence of payloads, with other fields and blocks around them, is read back in order exactly if no line of a payload ends in a carriage return. |

## Left out

- Router inboxes, event views, surfaces and their declared intents, leases and secrets: they are outside the durable
  projection and decide nothing in it.
- Trusted chrome, notices and prompt timeouts: their answers are arbitrary inputs.
- JSON Schema checks, digests of payloads and serialization: verdicts are inputs, digests are not recorded.
- Handler bodies, progress reports and the operating system: a handler returns an arbitrary outcome.
- The error for a deadline that overflows, raised after the first record was written
  (crates/kernel/src/kernel.rs:1277-1279): `now + timeout` is taken to be representable.
- Wall clocks that run backwards: grants are taken in the order of issuance.
- `issue_grant`, which asks trusted chrome while it holds the kernel: it is `commit_grant` with the answer at hand.
- A kernel that fails to come up is modelled as a session that can no longer write.
- LineReader.ReadLineCapped: errors of the underlying reader are not modelled; they are passed on unchanged.
- TwinGrants.ExecutingTwinBreaks: one executing invocation of the slot, dispatched and unchanged in content. With more
  of them, or with one whose provider was upgraded since, whether some calls break the store depends on which of them
  can still complete; `RestartConditions.PreparingSafeIff` decides it on the ledger, for every way the protocol allows
  work to finish.
- ChatDriver.RunChild: says that a child's run ended, not in which terminal state.
- ChatDriver.ExecutePlainSession: other callers ending the session's runs at the same time are not modelled; they can
  only close more.
- AppData.AppDataStore.PruneBackups: creation times are taken to follow the order of the document.
- AppUpdate.UpdateWithRestarts: nobody else writes the app's data during an update, and no other update is begun before
  the journal is gone.
- Planning updates, copying packages and starting backends: their verdicts are inputs.
- The agent worker, model provider, package and trust stores, kernel state file and all user interface code.
