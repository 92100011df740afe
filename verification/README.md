# Recovery and state protocols of the Awen server, modelled and proved

This project models the parts of Awen in which a crash, a race or a forgotten case would lose
data, and proves what they promise over every run.

- **Service launcher** (`LauncherProtocol.dfy`, `ServiceLauncher.dfy`). A supervisor runs one
  server, hands over to a trial of a newer version, backs the three SQLite files up before and
  restores them after a failure. `LauncherProtocol` is the durable protocol: the disk, the live
  processes and every single file operation as an action, the launcher's death among them.
  `ServiceLauncher` is the launcher itself as classes; its methods may only perform enabled
  actions, so each of them, cut short anywhere and recovered any number of times, is a run of the
  protocol. Live servers write and exit between any two of those actions. Every file operation may
  also fail; what the launcher must achieve when none does is stated for a reliable host, whatever
  runtimes are installed on it.
- **Startup reconciliation** (`Reconciliation.dfy`). Orphaned provider sessions in two stores that
  cannot be written together, with a marker that names the turn to continue. The stores carry the
  number of failures still to come, so that what one failure may spoil is stated too.
- **Command gate** (`CommandGate.dfy`). A flag, a one-shot latch and a queue; every read, write,
  offer and take is a step.
- **Local daemon** (`LaunchLock.dfy`, `LocalDaemon.dfy`, `DaemonProtocol.dfy`). The lock file as
  interleaved steps of many processes, the start and stop bodies, and both composed step by step.
- **Theme stream** (`EnvironmentTheme.dfy`). A sequenced state and a sliding buffer of one.
- **Settings** (`ProviderSecrets.dfy`, `SparseSettings.dfy`). Secrets kept out of the settings file,
  and settings stored as their difference from the defaults.
- **Walks, grammar and queues** (`ProcessTree.dfy`, `DependencyLicenses.dfy`, `AttachmentIds.dfy`,
  `AttachmentStore.dfy`, `KeybindingShortcuts.dfy`, `Keybindings.dfy`, `ConfirmDialog.dfy`).

`Wrappers.dfy` holds the option type, `Text.dfy` trimming and case folding. Run
`dafny verify dfyconfig.toml` to check everything.

Five promises do not hold without a condition, which the project states exactly:

- Lock bodies exclude each other in every run in which only processes of a given set may exit, if
  and only if none of them is alive at the start or no two processes are
  (`LaunchLock.ExclusionNeedsNoExit`): whenever one of two live processes may exit, there is a run
  in which two bodies of a process that does not exit overlap.
- A recorded continuation is prepared again after any deaths before its turn is admitted, if and only
  if the turn is still the one in progress: the session shows no other turn, and where it shows none,
  the marker names the turn and the binding no other (`Reconciliation.ContinuationSurvives`,
  `Reconciliation.InPlace`). As long as the marker is left alone this says just that the session does
  not show another turn (`Reconciliation.ContinuedUnlessProjected`). A provider that reports its new
  turn before `sendTurn` returns, and a death in between, do lose it
  (`Reconciliation.ProjectedTurnDisplaces`).
- Overlaying stripped settings on the defaults gives the settings back if and only if they have
  every key of the defaults (`SparseSettings.OverlayRestores`).
- After every write of its own the keybindings cache holds the bindings of a fresh load, and equals
  one in its issues too if and only if every rule written is accepted by the loader
  (`Keybindings.CacheAfterWrite`). A rule for "a+b" can be put in and is not accepted
  (`Keybindings.TwoKeysSpoilTheCache`).
- A client that sends back the settings it was shown changes no secret, if and only if no redacted
  variable with a stored value repeats the name of one that is plain, or sensitive with neither
  value nor mark (`ProviderSecrets.SendingBack`).

## Model

| member | source | states |
|---|---|---|
| LauncherProtocol.StepKeepsRecords | apps/server/src/serviceLauncher.ts:513-522 | every action keeps the stored record consistent and the recorded outcomes unique per update |
| LauncherProtocol.StepKeepsProcesses | apps/server/src/serviceLauncher.ts:416-467 | every action keeps at most one server process, of the version the stored record calls for |
| LauncherProtocol.StepKeepsData | apps/server/src/serviceLauncher.ts:114-184 | every action keeps who may have written the live files and the backup, a backup equal to the first trial's image, and live files restorable from it |
| LauncherProtocol.StepKeepsInv | apps/server/src/serviceLauncher.ts:368-414 | every action, the launcher's death included, keeps the whole invariant |
| LauncherProtocol.ReachableInv | apps/server/src/serviceLauncher.ts:368-627 | the invariant holds after every run from a fresh installation |
| LauncherProtocol.AtMostOneProcess | apps/server/src/serviceLauncher.ts:416-467 | in every world of every run at most one server process is alive |
| LauncherProtocol.WritingSpoilsData | apps/server/src/serviceLauncher.ts:109-116 | a live server may leave a file no older version accepts, so the backup is needed |
| LauncherProtocol.ActiveStartsOnOwnData | apps/server/src/serviceLauncher.ts:383-399 | an active server starts only on whole files that no version newer than the stored active one has written |
| LauncherProtocol.FirstImages | apps/server/src/serviceLauncher.ts:401-414 | an image is remembered for exactly the updates some trial of which has started |
| LauncherProtocol.FirstImageStays | apps/server/src/serviceLauncher.ts:109-116 | the image of an update's first trial start is the database of that moment and no retry replaces it |
| LauncherProtocol.BackupHeldWhilePending | apps/server/src/serviceLauncher.ts:109-135 | while an update with a started trial is pending, a complete backup exists and equals the database at its first trial start |
| LauncherProtocol.FailureRestoresFirstImage | apps/server/src/serviceLauncher.ts:605-626 | when a rollback or failure is recorded, all files equal the database at the first trial start, sidecars absent then are gone, and nothing newer than the active version wrote them |
| LauncherProtocol.CommitKeepsTrialData | apps/server/src/serviceLauncher.ts:552-560 | a commit makes the target active and leaves the database as the trial wrote it |
| LauncherProtocol.ActiveVersionNeverDecreases | apps/server/src/serviceLauncher.ts:484-522 | over any run the stored active version never decreases, and while an update is pending it is the version updated from |
| LauncherProtocol.OutcomesOnlyGrow | apps/server/src/serviceLauncher.ts:553-560 | recorded outcomes are never taken back or reordered |
| LauncherProtocol.SettledIsRemembered | apps/server/src/serviceLauncher.ts:615-624 | an update once settled stays settled in every later world |
| LauncherProtocol.OneOutcomePerUpdate | apps/server/src/serviceLauncher.ts:382-399 | no run records two terminal outcomes for one update |
| LauncherProtocol.CommittedStays | apps/server/src/serviceLauncher.ts:382-389 | after a commit no later recovery goes back below the target or forgets the commit |
| ServiceLauncher.Host.StageFile | apps/server/src/serviceLauncher.ts:122-127 | copies one file into the staging directory, only the main file being required, and touches nothing else |
| ServiceLauncher.Host.StageDatabase | apps/server/src/serviceLauncher.ts:118-128 | success leaves a staging directory equal to the live files, whatever an earlier attempt left there |
| ServiceLauncher.Host.BackupDatabaseOnce | apps/server/src/serviceLauncher.ts:114-135 | success means a complete backup; an existing one is never overwritten and a new one equals the live files |
| ServiceLauncher.Host.MarkDatabaseRestorePending | apps/server/src/serviceLauncher.ts:143-155 | success leaves the marker; nothing but the marker changes |
| ServiceLauncher.Host.RestoreOne | apps/server/src/serviceLauncher.ts:166-175 | puts one file back from the backup, or removes it if the backup lacks it |
| ServiceLauncher.Host.RestoreAll | apps/server/src/serviceLauncher.ts:166-176 | success makes the live files exactly the backup |
| ServiceLauncher.Host.RestoreDatabaseBackup | apps/server/src/serviceLauncher.ts:157-177 | from any prefix of an interrupted restore, success gives exactly the backup under the marker, and the backup is unchanged |
| ServiceLauncher.ServersDoNotInterfere | apps/server/src/serviceLauncher.ts:513-564 | whatever live servers write or remove, and even if they exit, each action of a launcher stays possible and has the same effect but for that |
| ServiceLauncher.Host.LetServersRun | apps/server/src/serviceLauncher.ts:416-467 | live servers change at most the database and who of them is alive, and nothing once none is |
| ServiceLauncher.Host.Do | apps/server/src/serviceLauncher.ts:193-214 | an action of a launcher has its effect whatever live servers do just before it, and is exact when none is alive |
| ServiceLauncher.Host.EmptyBackup | apps/server/src/serviceLauncher.ts:182-182 | removes the entries of a backup that no pending update needs one by one, and touches nothing else |
| ServiceLauncher.Host.RemoveEntry | apps/server/src/serviceLauncher.ts:182-182 | removes one entry, a file or the marker, of a backup that no pending update needs |
| ServiceLauncher.Host.DiscardDatabaseBackup | apps/server/src/serviceLauncher.ts:179-184 | removes only the backup of an update that is not pending |
| ServiceLauncher.Host.WriteServiceState | apps/server/src/serviceLauncher.ts:193-214 | the state record is replaced as a whole or not at all, and a failure may be reported after the replacement |
| ServiceLauncher.Host.DieAfter | apps/server/src/serviceLauncher.ts:368-399 | a death keeps exactly the file operations completed before it and leaves no process alive |
| ServiceLauncher.Launcher.Fatal | apps/server/src/serviceLauncher.ts:320-329 | a failed transition leaves no child and no further transition |
| ServiceLauncher.Launcher.RequestStop | apps/server/src/serviceLauncher.ts:343-348 | a stop signal is noted once and the first one cancels the timer |
| ServiceLauncher.Launcher.Stop | apps/server/src/serviceLauncher.ts:349-359 | the queued stop ends the child and the launcher and leaves the disk alone |
| ServiceLauncher.Host.RuntimeExists | apps/server/src/serviceLauncher.ts:216-227 | without failures a runtime is found exactly if its version is installed |
| ServiceLauncher.Launcher.StartChild | apps/server/src/serviceLauncher.ts:416-467 | success is one new process of the asked version and role, a trial with its timer set; failure leaves none and changes nothing; without failures it succeeds exactly if the version is installed |
| ServiceLauncher.Launcher.Spawn | apps/server/src/serviceLauncher.ts:420-467 | one process more, with a number of its own, and for a trial its timer |
| ServiceLauncher.Launcher.SettleAsFailure | apps/server/src/serviceLauncher.ts:615-624 | restore, then terminal record, then discard: success leaves the backed-up files and the previous version selected; without failures it succeeds |
| ServiceLauncher.Launcher.ReturnToPrevious | apps/server/src/serviceLauncher.ts:605-626 | success ends with the previous version active on the files as backed up; without failures it succeeds exactly if that version is installed |
| ServiceLauncher.Launcher.BeginOrRetryTrial | apps/server/src/serviceLauncher.ts:401-414 | ends with the trial of the target, the first backup kept, or with the previous version after a recorded failure; without failures with the trial exactly if the database and the target runtime are there, else with the previous version if that is installed |
| ServiceLauncher.Launcher.Recover | apps/server/src/serviceLauncher.ts:382-399 | without failures: with nothing pending the active version starts on untouched files; with a restore marked the rollback is finished; with the target runtime missing the update is recorded as failed and the previous version runs on the backed-up files; otherwise the trial runs. It fails exactly if the version to run is not installed |
| ServiceLauncher.Launcher.Objection | apps/server/src/serviceLauncher.ts:484-507 | there is no objection exactly to an exact newer target with an absolute path asked for by the selected active server while nothing is pending |
| ServiceLauncher.Launcher.AcceptRequest | apps/server/src/serviceLauncher.ts:513-524 | an accepted update is stored as pending from the active version under an unused id |
| ServiceLauncher.Launcher.HandleUpdateRequest | apps/server/src/serviceLauncher.ts:478-525 | a rejected request changes nothing; an accepted one satisfied every check and is stored; without failures it is accepted exactly if there is no objection |
| ServiceLauncher.Launcher.BeginTrial | apps/server/src/serviceLauncher.ts:527-536 | a handoff timer of a child that is not the current active one changes nothing |
| ServiceLauncher.Launcher.CommitUpdate | apps/server/src/serviceLauncher.ts:552-563 | the commit is recorded before the backup goes, and the trial becomes the active server as it runs; without failures its timer and the backup are gone |
| ServiceLauncher.Launcher.HandlePrepared | apps/server/src/serviceLauncher.ts:538-564 | the right id commits in place, on data no version newer than the new active one wrote; a wrong id from a trial rolls back to the backup, any other is fatal |
| ServiceLauncher.Launcher.HandleMessage | apps/server/src/serviceLauncher.ts:469-476 | a message of a child that is no longer current, or while stopping, changes nothing |
| ServiceLauncher.Launcher.HandlePreparedTimeout | apps/server/src/serviceLauncher.ts:566-573 | only the current trial's timer acts, and it rolls back to the backup |
| ServiceLauncher.Launcher.HandleExit | apps/server/src/serviceLauncher.ts:575-603 | only the current child's exit acts: a trial's rolls back, an active one's retries a pending update or is fatal |
| ServiceLauncher.Launcher.Handle | apps/server/src/serviceLauncher.ts:312-467 | every event of every child keeps the launcher valid; a stale child's messages, timers and exits change nothing; an error, an unexpected exit or a due stop ends it; a trial's end brings the previous version back if nothing fails |
| ServiceLauncher.StartLauncher | apps/server/src/serviceLauncher.ts:298-310 | over any reachable disk a new launcher is valid, and if nothing fails and the active version is installed a server runs |
| ServiceLauncher.Serve | apps/server/src/serviceLauncher.ts:298-627 | under any schedule of events, failures, deaths between any two file operations and server writes and exits between any two of them, what happens is a run of the protocol with at most one server alive |
| ServiceLauncher.UsedOnlyGrows | apps/server/src/serviceLauncher.ts:513-519 | an update id once used stays used, so a fresh id was never used before a death either |
| Reconciliation.ReconciledOutcome | apps/server/src/serverRuntimeStartup.ts:536-740 | every orphan ends starting with its turn noted, or settled as an error that says why with no live marker; every other thread is untouched |
| Reconciliation.CutOffTurn | apps/server/src/serverRuntimeStartup.ts:582-692 | a turn cut off without a marker is continued exactly if that is wanted, its binding is running and the thread can be resumed, and else settled |
| Reconciliation.MarkedTurn | apps/server/src/serverRuntimeStartup.ts:563-692 | a marked turn is continued whatever the preference exactly if the thread can be resumed |
| Reconciliation.MarkerForAnotherTurn | apps/server/src/serverRuntimeStartup.ts:563-588 | a marker for another turn than the one shown counts for nothing |
| Reconciliation.MarkedWithoutTurn | apps/server/src/serverRuntimeStartup.ts:563-579 | a session that shows no turn goes by its marker, unless the binding names another turn |
| Reconciliation.IdleSession | apps/server/src/serverRuntimeStartup.ts:529-535 | a ready session is taken up exactly if its continuation was prepared and not sent; other idle ones are left alone |
| Reconciliation.StraySession | apps/server/src/serverRuntimeStartup.ts:536-545 | a turn left on an idle session, or a start that was never noted, is settled |
| Reconciliation.SettledPayload | apps/server/src/serverRuntimeStartup.ts:589-610 | settling forgets the turn and a marker and keeps what else the binding says |
| Reconciliation.ReconcilingTwice | apps/server/src/serverRuntimeStartup.ts:536-740 | before any turn is sent a second reconciliation changes nothing, even with another preference |
| Reconciliation.MarkerAfterStep | apps/server/src/provider/Layers/ProviderService.ts:1756-1771 | a step leaves a marker only by keeping it without admitting a turn, or by writing it for the turn in progress |
| Reconciliation.MarkerHasOrigin | apps/server/src/serverRuntimeStartup.ts:406-692 | over any life of a thread, a marker names a turn that was in progress when it was written, and no turn has been admitted since |
| Reconciliation.NeverTheWrongTurn | apps/server/src/serverRuntimeStartup.ts:563-692 | over any life of a thread, reconciliation continues only the turn the session is in, or one that was in progress when its marker was written and after which none was admitted |
| Reconciliation.TwoWritesPrepare | apps/server/src/serverRuntimeStartup.ts:655-681 | the binding write followed by the session write leaves what the whole preparation does |
| Reconciliation.TwoWritesSettle | apps/server/src/serverRuntimeStartup.ts:589-645 | the two writes of a settlement, in order, leave what reconciliation says |
| Reconciliation.AdmittedIsContinued | apps/server/src/provider/Layers/ProviderService.ts:1756-1771 | an admitted and projected turn is continued after a death exactly if that is wanted |
| Reconciliation.StoppedTurnIsContinued | apps/server/src/provider/Layers/ProviderService.ts:2351-2389 | a turn accepted by the provider in which a server stops that is to continue it is continued whatever the preference |
| Reconciliation.StoppedTurnIsSettled | apps/server/src/provider/Layers/ProviderService.ts:2351-2389 | a turn a server stops in without that is settled, wanted or not |
| Reconciliation.UpdateMarkIsContinued | apps/server/src/serverRuntimeStartup.ts:406-448 | a turn marked before an update is continued after the server stopped, and the mark is not yet a preparation |
| Reconciliation.EndedIsLeftAlone | apps/server/src/serverRuntimeStartup.ts:536-545 | a turn that ended leaves nothing to reconcile |
| Reconciliation.RefreshedStart | apps/server/src/serverRuntimeStartup.ts:570-575 | a refreshed start is taken up again exactly if its provider is at no other turn than the one noted |
| Reconciliation.StoppedHasNoMarker | apps/server/src/serverRuntimeStartup.ts:450-474 | after a stop by the user, or once the turn was sent, no note is left and all else is kept |
| Reconciliation.FirstWriteRecords | apps/server/src/serverRuntimeStartup.ts:656-666 | after the first write alone the continuation is durably recorded |
| Reconciliation.StepKeepsHeld | apps/server/src/serverRuntimeStartup.ts:536-692 | through every step before a continued turn is admitted, some continuation stays noted |
| Reconciliation.ContinuationSurvives | apps/server/src/serverRuntimeStartup.ts:536-692 | after deaths and stops anywhere before the turn is admitted, the provider already at a turn included, reconciliation prepares the recorded turn exactly if it is still the one in progress |
| Reconciliation.ContinuedUnlessProjected | apps/server/src/serverRuntimeStartup.ts:563-579 | as long as its note is left alone, the same turn is prepared after any number of restarts exactly if the session does not show another |
| Reconciliation.DisplacedOutcome | apps/server/src/serverRuntimeStartup.ts:582-692 | with another turn shown, that one is prepared if it was interrupted and such turns are continued, else the thread is settled |
| Reconciliation.ProjectedTurnDisplaces | apps/server/src/provider/Layers/ProviderService.ts:1739-1771 | a turn reported before its admission, and a death between the two, lose the recorded turn |
| Reconciliation.FailuresNoteNoOtherTurn | apps/server/src/serverRuntimeStartup.ts:546-740 | failing reads and writes leave no marker for another turn, and no session starting without its turn noted |
| Reconciliation.MarkedIsContinued | apps/server/src/serverRuntimeStartup.ts:406-448 | marking a running thread that can be resumed makes it one that is continued with that turn, whatever the preference |
| Reconciliation.NothingToMark | apps/server/src/serverRuntimeStartup.ts:406-448 | a thread that runs no turn, or cannot be resumed, is not marked |
| Reconciliation.SentIsNotReplayed | apps/server/src/provider/Layers/ProviderService.ts:1756-1771 | once a turn is admitted no earlier marker is left, whatever happens later, so an idle thread is not continued unless marked anew |
| Reconciliation.Stores.SettleAsError | apps/server/src/serverRuntimeStartup.ts:589-645 | without failures both stores say stopped or error with no turn and no marker; one failure does not keep the session from being settled; only this thread changes |
| Reconciliation.Stores.Prepare | apps/server/src/serverRuntimeStartup.ts:655-681 | the two writes, binding first, tried once more after a failure and no more, so that it takes two failures not to prepare; the session changes only after the binding was written |
| Reconciliation.Stores.ReconcileThread | apps/server/src/serverRuntimeStartup.ts:546-740 | one orphan ends as the specification says without failures; with one failure, or two if it is to be continued, its session is prepared or settled all the same; with any failures each record is as it was, prepared or settled; no other thread changes |
| Reconciliation.Stores.ContinueThread | apps/server/src/serverRuntimeStartup.ts:694-735 | a sent continuation loses its markers, an interrupted one keeps everything, a failed one is settled with its own error and no longer an orphan |
| Reconciliation.Stores.PreparedThreads | apps/server/src/serverRuntimeStartup.ts:507-535 | finds only prepared unsent continuations, and of the ready threads all of them, also if the bindings cannot be listed and are read one by one |
| Reconciliation.Stores.ReconcileIfOrphaned | apps/server/src/serverRuntimeStartup.ts:536-545 | a live or idle thread is left alone, an orphan reconciled, and no other thread changes |
| Reconciliation.Stores.ReconcileProviderSessions | apps/server/src/serverRuntimeStartup.ts:482-741 | all threads end as the specification says without failures, listed or not; one failure leaves no session in progress that is not prepared; with more, orphans have each record as it was, prepared or settled, and all others are untouched |
| Reconciliation.Stores.ClearContinuationMarkers | apps/server/src/serverRuntimeStartup.ts:450-474 | clears the markers of exactly the given threads |
| Reconciliation.Stores.MarkRunningSession | apps/server/src/serverRuntimeStartup.ts:422-441 | the running turn of a thread is noted exactly if it can be resumed and nothing fails |
| Reconciliation.Stores.MarkRunningSessions | apps/server/src/serverRuntimeStartup.ts:406-448 | marks exactly the threads running a turn they can resume; after a failure the marks made are cleared again, unless there is a second one, and nothing else changed |
| CommandGate.StepKeepsSignals | apps/server/src/serverRuntimeStartup.ts:121-131 | every step keeps that nothing starts before the signal and no queued command before the latch opens |
| CommandGate.StepKeepsOrder | apps/server/src/serverRuntimeStartup.ts:116-119 | every step keeps offered = finished + in hand + queued, each offered once |
| CommandGate.StepKeepsSettled | apps/server/src/serverRuntimeStartup.ts:142-150 | every step keeps that a command is settled once when over and not before |
| CommandGate.StepKeepsResults | apps/server/src/serverRuntimeStartup.ts:144-148 | every step keeps that a queued command gets the startup error exactly if the latch broke |
| CommandGate.RunKeepsInv | apps/server/src/serverRuntimeStartup.ts:111-153 | the invariant holds after every interleaving |
| CommandGate.NothingRunsBeforeReady | apps/server/src/serverRuntimeStartup.ts:123-126 | before the ready signal no command runs, and a queued one only after the latch opened |
| CommandGate.BrokenStaysBroken | apps/server/src/serverRuntimeStartup.ts:127-131 | once the latch broke, no queued command ever runs, even if readiness is signalled later |
| CommandGate.FailureWithoutReady | apps/server/src/serverRuntimeStartup.ts:127-139 | startup that never signals readiness runs no command at all |
| CommandGate.CalledWhenReady | apps/server/src/serverRuntimeStartup.ts:132-136 | a command called after the ready signal starts at once, and gets its own exit, past the queue |
| CommandGate.CalledWhenFailed | apps/server/src/serverRuntimeStartup.ts:137-140 | a command called after startup failed gets the startup error and never starts |
| CommandGate.CalledWhenPending | apps/server/src/serverRuntimeStartup.ts:142-150 | a command called before either is queued last and not settled |
| CommandGate.SignalsDecide | apps/server/src/serverRuntimeStartup.ts:121-131 | the first latch step decides for good, and readiness is what was signalled last |
| CommandGate.DrainAnswers | apps/server/src/serverRuntimeStartup.ts:143-148 | with the latch opened the worker runs every waiting and queued command and gives each its own exit; with it broken it runs none and gives each the startup error |
| CommandGate.ArrivalOrder | apps/server/src/serverRuntimeStartup.ts:116-150 | the worker takes commands in arrival order and settles each at most once, with the startup error exactly if startup failed first |
| CommandGate.DrainSettlesAll | apps/server/src/serverRuntimeStartup.ts:116-148 | once startup has succeeded or failed the worker alone settles every queued command, once, in order |
| LaunchLock.StepKeepsExclusive | apps/server/src/localDaemon.ts:266-309 | while recorded processes live, every step keeps the lock file the property of one contender |
| LaunchLock.StepKeepsWitnessed | apps/server/src/localDaemon.ts:281-291 | every step keeps that records in the file or read from it name live processes |
| LaunchLock.OneBodyAtATime | apps/server/src/localDaemon.ts:257-310 | if no recorded process exits, no interleaving has two contenders inside, half-written records included |
| LaunchLock.FreeLockIsTaken | apps/server/src/localDaemon.ts:266-280 | a newcomer takes a free lock and records itself in it |
| LaunchLock.LockIsReleased | apps/server/src/localDaemon.ts:296-309 | whoever is inside leaves the lock free |
| LaunchLock.OthersLockIsKept | apps/server/src/localDaemon.ts:302-309 | a lock another contender has taken meanwhile is not removed on release nor overwritten by a late write |
| LaunchLock.StaleLockIsSeen | apps/server/src/localDaemon.ts:281-291 | the record of a process that is gone is found stale |
| LaunchLock.StaleLockIsTakenOver | apps/server/src/localDaemon.ts:281-291 | and is removed and the lock taken |
| LaunchLock.HeldLockIsWaitedFor | apps/server/src/localDaemon.ts:281-295 | the lock of a live process, or one still being written, is left as it is and tried again |
| LaunchLock.AloneIsExclusive | apps/server/src/localDaemon.ts:257-310 | a process that is alone never has two bodies at a time, whatever exits |
| LaunchLock.ExitBreaksExclusion | apps/server/src/localDaemon.ts:281-291 | for any two live processes there is a run in which only the first exits and two bodies of the second overlap |
| LaunchLock.ExclusionNeedsNoExit | apps/server/src/localDaemon.ts:257-310 | bodies run one at a time in every run in which only the given processes may exit, exactly if none of them is alive at the start or no two processes are |
| LocalDaemon.DataRoot.Inspect | apps/server/src/localDaemon.ts:383-477 | tells exactly what the record, the process table and the endpoint say: absent, invalid, stale, unreachable, foreign, refused or ready; only a live daemon is ready |
| LocalDaemon.DataRoot.ReconcileUnattachedRecord | apps/server/src/localDaemon.ts:810-849 | a record is removed exactly if it names a port that is free, and then no managed daemon lives; a refusal changes nothing |
| LocalDaemon.DataRoot.StopLocked | apps/server/src/localDaemon.ts:946-1012 | a completed stop ends the one live daemon and its record; a daemon that does not answer as itself, twice, is not signalled; without confirmation, or on failure, nothing changes; with no daemon alive the record decides the answer |
| LocalDaemon.DataRoot.ReservePort | apps/server/src/localDaemon.ts:573-596 | the requested port if free, else exactly an offered free one unless the requested one is required |
| LocalDaemon.DataRoot.SpawnAndWait | apps/server/src/localDaemon.ts:889-910 | a daemon that gets ready lives on the port and is recorded; otherwise none is left alive |
| LocalDaemon.DataRoot.StartLocked | apps/server/src/localDaemon.ts:851-918 | success leaves exactly one live daemon, recorded and on the port asked for or offered; a fitting one is reused and another replaced; a stale record is cleared and a daemon started exactly if its port is free; one that does not prove itself is left alone with no second one beside it; an unavailable required port stops nothing |
| LocalDaemon.Operate | apps/server/src/localDaemon.ts:851-1012 | any sequence of whole starts, stops and outside events leaves at most one live managed daemon, the recorded one |
| DaemonProtocol.BodyLearns | apps/server/src/localDaemon.ts:810-1012 | each step of a start or stop body learns only what is so: before it spawns, that no daemon is alive |
| DaemonProtocol.StepKeepsBodies | apps/server/src/localDaemon.ts:851-1012 | what a body knows stays right through every step of every other process |
| DaemonProtocol.StartingStays | apps/server/src/localDaemon.ts:889-910 | a spawned daemon stays accounted for until it is recorded or gone |
| DaemonProtocol.StepKeepsAccounted | apps/server/src/localDaemon.ts:889-910 | every step keeps that a live daemon is the recorded one or the one being started |
| DaemonProtocol.StepKeepsInv | apps/server/src/localDaemon.ts:257-310 | every step of lock, body, daemon or bystander keeps the whole invariant, if no recorded process exits by it |
| DaemonProtocol.OneLiveDaemon | apps/server/src/localDaemon.ts:851-1012 | however many processes start and stop at once and however their steps interleave, at most one managed daemon is alive, if no process recorded in the lock exits; outside the lock it is the recorded one |
| DaemonProtocol.StartSucceeds | apps/server/src/localDaemon.ts:851-918 | from a free lock with no daemon alive and the recorded port free, a start can run to one live recorded daemon and a free lock |
| DaemonProtocol.UnlocatableStays | apps/server/src/localDaemon.ts:818-824 | a body that found a record naming no port ends there and touches nothing |
| DaemonProtocol.StopSucceeds | apps/server/src/localDaemon.ts:946-1012 | a stop can run to neither daemon nor record and a free lock |
| DaemonProtocol.ReplaceSucceeds | apps/server/src/localDaemon.ts:862-918 | a start on another port can replace the recorded daemon |
| EnvironmentTheme.RefreshingKeeps | apps/server/src/environmentTheme.ts:245-263 | updating, telling and finishing a refresh keep what a subscriber relies on |
| EnvironmentTheme.TakingKeeps | apps/server/src/environmentTheme.ts:296-299 | taking or dropping a buffered set keeps it too |
| EnvironmentTheme.StepKeepsInv | apps/server/src/environmentTheme.ts:232-303 | every step keeps it for every subscriber |
| EnvironmentTheme.NeverStepsBackwards | apps/server/src/environmentTheme.ts:287-301 | in every interleaving a subscriber gets its snapshot first, then strictly increasing sequence numbers |
| EnvironmentTheme.FirstRefresh | apps/server/src/environmentTheme.ts:287-295 | a refresh of its own gives a new subscriber the directory as its snapshot |
| EnvironmentTheme.SubscriberIsTold | apps/server/src/environmentTheme.ts:287-295 | from any quiet world a new subscriber can get the published set, which is what the directory holds, as the first thing received |
| EnvironmentTheme.ChangeIsTold | apps/server/src/environmentTheme.ts:296-301 | a later refresh that changes the set reaches a drained subscriber as the next thing received |
| EnvironmentTheme.NeverLosesTheNewest | apps/server/src/environmentTheme.ts:232-263 | with its buffer drained and no refresh in flight the last set received is the published one |
| EnvironmentTheme.RefreshAlone | apps/server/src/environmentTheme.ts:245-263 | a refresh publishes what the directory holds, under the next number and to all buffers exactly if it differs |
| ProviderSecrets.FindLast | apps/server/src/serverSettings.ts:769-774 | finds a variable of the name exactly if there is one |
| ProviderSecrets.SecretStore.PersistOne | apps/server/src/serverSettings.ts:749-814 | handles one variable: its persisted form and the one secret it may change |
| ProviderSecrets.SecretStore.PersistInstance | apps/server/src/serverSettings.ts:746-819 | the persisted environment, and the secrets after all its variables in order |
| ProviderSecrets.SecretStore.RemoveStale | apps/server/src/serverSettings.ts:822-840 | removes exactly the secrets of variables that were sensitive and are no longer |
| ProviderSecrets.SecretStore.Persist | apps/server/src/serverSettings.ts:736-840 | the persisted settings and the value of every secret after an update |
| ProviderSecrets.SecretStore.MaterializeInstance | apps/server/src/serverSettings.ts:662-693 | fills in exactly the redacted sensitive variables from the store |
| ProviderSecrets.NoPlaintextPersisted | apps/server/src/serverSettings.ts:779-814 | no sensitive value is left in the persisted settings |
| ProviderSecrets.PlainStaysPlain | apps/server/src/serverSettings.ts:749-756 | a plain variable is persisted and read back with its value, and leaves no secret under its name |
| ProviderSecrets.SensitiveIsMarked | apps/server/src/serverSettings.ts:779-814 | a sensitive variable is persisted without value, marked exactly if it had one or was marked |
| ProviderSecrets.ShownHoldsNoSecret | apps/server/src/serverSettings.ts:153-165 | what was persisted is shown as it is; no sensitive value is shown, and the mark tells exactly whether there is one |
| ProviderSecrets.LastVariableDecides | apps/server/src/serverSettings.ts:769-812 | a secret left for a mentioned name belongs to the last variable of that name, which is sensitive and persisted as redacted |
| ProviderSecrets.SecretsStillBelong | apps/server/src/serverSettings.ts:736-840 | every update keeps that each stored secret belongs to a name whose last variable is sensitive and redacted, even with repeated names |
| ProviderSecrets.SecretAfterSupplying | apps/server/src/serverSettings.ts:769-812 | without plaintext on disk the last variable that supplies a value decides the secret |
| ProviderSecrets.ReadsBackWhatWasWritten | apps/server/src/serverSettings.ts:655-840 | for every name of every environment, repeated or not: a value supplied is read back, and a redacted one as the value the name had, or the one supplied beside it for the same name |
| ProviderSecrets.EachReadsBack | apps/server/src/serverSettings.ts:655-840 | with distinct names every variable is read back, supplied or as it was |
| ProviderSecrets.SendingBack | apps/server/src/serverSettings.ts:153-187 | a client that sends back what it was shown changes no value, except exactly that a stored one is lost where its name is repeated with a plain or empty unmarked variable |
| SparseSettings.StripDefaultServerSettings | apps/server/src/serverSettings.ts:374-406 | the key-by-key walk computes the stripped value |
| SparseSettings.OverlayRestores | apps/server/src/serverSettings.ts:534-538 | stripped settings over the same defaults are the settings again exactly when they have all keys of the defaults |
| SparseSettings.StrippedHoldsNoDefault | apps/server/src/serverSettings.ts:374-406 | the sparse tree holds no leaf, array or atomic value equal to its default and no empty object |
| ProcessTree.GroupByParent | scripts/lib/process-tree.ts:120-128 | groups every entry under its parent and nothing else |
| ProcessTree.Walk | scripts/lib/process-tree.ts:130-140 | the worklist ends, cycles included, with a set that stays in the tree and is closed under admissible children |
| ProcessTree.ClosedHoldsTree | scripts/lib/process-tree.ts:106-110 | a set with the root closed under admissible children holds the whole tree |
| ProcessTree.CollectProcessTree | scripts/lib/process-tree.ts:111-143 | sorted and without repeats, exactly the root and the pids with a parent chain to it along which creation times never decrease |
| ProcessTree.WaitForObservedExit | scripts/lib/process-tree.ts:215-234 | polls until nobody is left or the deadline, and reports exactly the observed processes still there |
| ProcessTree.StopProcessTree | scripts/lib/process-tree.ts:152-206 | tells a root gone before, a table that could not be read, and an observed tree apart; the survivors are exactly the tracked processes still listed, not replaced, at the last reading, which is verified exactly if that reading succeeded and came once nobody was left or the deadline had passed |
| DependencyLicenses.IdentityTellsApart | scripts/lib/third-party-licenses.ts:427-432 | identities are equal exactly if names and versions are, as long as versions hold no at sign |
| DependencyLicenses.VersionWithAt | scripts/lib/third-party-licenses.ts:427-432 | with one in a version, different packages can share an identity |
| DependencyLicenses.Collection.Record | scripts/lib/third-party-licenses.ts:519-538 | lists a third-party package for the bundle, passing over first-party ones |
| DependencyLicenses.Collection.VisitManifest | scripts/lib/third-party-licenses.ts:514-542 | ends on cyclic graphs, visits only what is reachable and everything below what it visits; it succeeds only if all these manifests can be read |
| DependencyLicenses.ChainExtends | scripts/lib/third-party-licenses.ts:516-541 | reachability extends by one dependency |
| DependencyLicenses.ClosedHoldsChain | scripts/lib/third-party-licenses.ts:514-542 | what is closed under dependencies holds everything reachable |
| DependencyLicenses.CollectProductionDependencyPackages | scripts/lib/third-party-licenses.ts:506-548 | each identity is listed with exactly the bundles from whose manifests it is reachable; it fails exactly if one of these or a reachable manifest cannot be read |
| AttachmentIds.SegmentIsDashed | apps/server/src/attachmentStore.ts:16-16 | a segment of the pattern is word characters with single inner dashes |
| AttachmentIds.DashedIsSegment | apps/server/src/attachmentStore.ts:16-16 | and the other way round |
| AttachmentIds.ParseOfJoin | apps/server/src/attachmentStore.ts:19-22 | reading a joined id gives back segment, UUID and extension |
| AttachmentIds.JoinOfParse | apps/server/src/attachmentStore.ts:67-101 | what is read joins to the id |
| AttachmentIds.ReadOneWay | apps/server/src/attachmentStore.ts:15-22 | no id has two readings, although segments contain dashes |
| AttachmentIds.SafeSegmentIsSegment | apps/server/src/attachmentStore.ts:28-41 | a segment made of any thread id, trimmed and in lower case, fits the pattern, is short enough and is never the pending one |
| AttachmentIds.SegmentIsKept | apps/server/src/attachmentStore.ts:28-41 | a thread id that fits already is its own segment |
| AttachmentStore.CreatedReadsBack | apps/server/src/attachmentStore.ts:53-101 | a created id is read back as its segment, UUID and normalised extension |
| AttachmentStore.PendingReadsBack | apps/server/src/attachmentStore.ts:63-65 | so is a pending one, under the pending segment |
| AttachmentStore.NormalExtensionReads | apps/server/src/attachmentStore.ts:53-61 | an extension is taken with or without its dot, in lower case, and as "bin" if it is none |
| AttachmentStore.ResolveAttachmentPathById | apps/server/src/attachmentStore.ts:134-160 | the loop finds the file the specification names |
| AttachmentStore.NamedFile | apps/server/src/attachmentStore.ts:262-273 | id and extension can be told from a file name |
| AttachmentStore.CurrentExtension | apps/server/src/attachmentStore.ts:134-160 | the file an id stands for has the id's own extension, or a listed one if it has none |
| AttachmentStore.PendingIsFound | apps/server/src/attachmentStore.ts:134-160 | a pending upload is found exactly if its file is there, under its own extension or a listed one |
| AttachmentStore.PendingIsClaimable | apps/server/src/attachmentStore.ts:171-215 | a pending upload that is found can be claimed by any thread that has a segment, and this is the plan |
| AttachmentStore.ClaimedWasPending | apps/server/src/attachmentStore.ts:171-215 | whatever id is claimed is a pending one, and its file is there |
| AttachmentStore.CreatedIsNotClaimable | apps/server/src/attachmentStore.ts:185-190 | an attachment of a thread, a claimed one included, cannot be claimed |
| AttachmentStore.NoSegmentNoClaim | apps/server/src/attachmentStore.ts:182-184 | a thread without a segment can claim nothing |
| AttachmentStore.ClaimKeepsExtension | apps/server/src/attachmentStore.ts:171-215 | a planned claim renames an existing file, keeps its extension and gives it an id of the thread |
| AttachmentStore.ClaimedIdResolves | apps/server/src/attachmentStore.ts:171-215 | after the rename the claimed id resolves to the planned final path |
| AttachmentStore.SweepStalePendingAttachments | apps/server/src/attachmentStore.ts:217-260 | deletes only stale files, all of them if each can be examined, and counts them |
| AttachmentStore.ClaimedIsNotSwept | apps/server/src/attachmentStore.ts:217-260 | a claimed file is stale exactly if its extension is that of an unfinished upload and it is old, even for a thread named pending |
| AttachmentStore.PendingIsSwept | apps/server/src/attachmentStore.ts:217-260 | a pending file is stale exactly past its age, a shorter one for an unfinished upload |
| AttachmentStore.FileExtensionReads | apps/server/src/attachmentStore.ts:43-51 | a file keeps its extension in lower case if it is short and plain and not the reserved one, else it gets ".bin" |
| AttachmentStore.UploadedFileIsKept | apps/server/src/assets/AttachmentUpload.ts:97-175 | an uploaded file of any name is found and can be claimed under its pending id, is stale exactly past its age before that, and never after it |
| KeybindingShortcuts.SplitOfJoin | packages/shared/src/keybindings.ts:80-84 | splitting undoes joining |
| KeybindingShortcuts.ParsedMeans | packages/shared/src/keybindings.ts:80-142 | a shortcut is read exactly if it has one key and no empty part, and means that key with the modifiers named anywhere in it under any of their names |
| KeybindingShortcuts.CaseDoesNotMatter | packages/shared/src/keybindings.ts:80-84 | case does not matter |
| KeybindingShortcuts.ParsedHasKey | packages/shared/src/keybindings.ts:80-142 | the key of a parsed shortcut is in normal form |
| KeybindingShortcuts.SpelledReadsBack | apps/server/src/keybindings.ts:141-152 | a shortcut in canonical spelling is parsed as itself, plus and space keys included |
| KeybindingShortcuts.EscIsEscape | packages/shared/src/keybindings.ts:74-78 | the short name of the escape key means it, under any modifiers |
| KeybindingShortcuts.SpelledApart | apps/server/src/keybindings.ts:107-120 | two parsed shortcuts are spelled the same exactly if they are the same |
| KeybindingShortcuts.TwoKeysDoNotParse | packages/shared/src/keybindings.ts:126-129 | two keys joined by a plus sign are no shortcut |
| Keybindings.IssueAt | apps/server/src/keybindings.ts:379-402 | there is an issue for exactly the entries that cannot be used, under their index |
| Keybindings.NoIssues | apps/server/src/keybindings.ts:379-402 | no issues exactly if every entry can be used |
| Keybindings.GoodAreKept | apps/server/src/keybindings.ts:360-402 | if every entry can be used the rules are the entries |
| Keybindings.KeptInOrder | apps/server/src/keybindings.ts:360-402 | usable rules come in the order of their entries |
| Keybindings.ConflictMeansSameShortcut | apps/server/src/keybindings.ts:107-120 | two rules conflict exactly if they mean the same shortcut, however spelled, under the same condition |
| Keybindings.CompiledRule | packages/shared/src/keybindings.ts:278-296 | a rule binds its own command, to the shortcut its key means, under its condition if that can be read, and else nothing |
| Keybindings.CompiledMembers | packages/shared/src/keybindings.ts:298-311 | the bindings are exactly what the rules compile to |
| Keybindings.CompiledInOrder | packages/shared/src/keybindings.ts:298-311 | in the order of the rules |
| Keybindings.WrittenBindsTheSame | apps/server/src/keybindings.ts:425-430 | whatever rules are written, reading them back binds the same |
| Keybindings.WrittenReadsBack | apps/server/src/keybindings.ts:404-423 | accepted rules are read back as written |
| Keybindings.CustomWins | packages/shared/src/keybindings.ts:313-331 | merging keeps all of the user's bindings last and adds defaults only for commands not bound |
| Keybindings.RetainedInOrder | packages/shared/src/keybindings.ts:313-331 | the defaults retained keep their order |
| Keybindings.MergedInOrder | packages/shared/src/keybindings.ts:313-331 | the merged bindings are the last of the defaults retained followed by those of the user, as many as fit |
| Keybindings.SyncTwice | apps/server/src/keybindings.ts:451-546 | a second startup sync changes nothing, whatever was on disk |
| Keybindings.SyncKeepsEntries | apps/server/src/keybindings.ts:521-543 | a sync keeps the user's entries in order as a prefix and does not grow past the maximum |
| Keybindings.SyncBackfills | apps/server/src/keybindings.ts:472-507 | it adds only defaults whose command is unbound and context free, and all of them while room remains |
| Keybindings.MissingInOrder | apps/server/src/keybindings.ts:472-507 | the defaults to add keep their order |
| Keybindings.SyncSkipsIssues | apps/server/src/keybindings.ts:460-471 | a file with an issue is left alone |
| Keybindings.RemoveUndoesUpsert | apps/server/src/keybindings.ts:619-681 | removing a rule just put in leaves the other rules, less one evicted from a full file |
| Keybindings.UpsertTwice | apps/server/src/keybindings.ts:619-658 | putting the same rule in again changes nothing |
| Keybindings.UpsertedRules | apps/server/src/keybindings.ts:619-643 | after an upsert the new rule is last and nowhere else, the replaced one is gone, and any other stays while there is room |
| Keybindings.UpsertEvictsOne | apps/server/src/keybindings.ts:619-643 | only if the rules to stay fill the file is one evicted, the first |
| Keybindings.WithoutInOrder | apps/server/src/keybindings.ts:659-681 | rules left keep their order |
| Keybindings.CacheAfterWrite | apps/server/src/keybindings.ts:644-651 | after a write the cached bindings are those of a fresh load, and the issues too exactly if every rule written is accepted |
| Keybindings.JoinedLettersAreNotAccepted | packages/shared/src/keybindings.ts:278-296 | a rule for "a+b" does not compile, so a load does not accept it |
| Keybindings.TwoKeysSpoilTheCache | apps/server/src/keybindings.ts:619-658 | a rule whose key joins two keys can be put in, and then the cache has no issue where a fresh load has one |
| Keybindings.UpsertedAccepted | apps/server/src/keybindings.ts:619-643 | only the new rule of an upsert may be unacceptable, and the file keeps to the maximum |
| Keybindings.Store.LoadRuntime | apps/server/src/keybindings.ts:360-402 | the usable rules and an issue for every other entry |
| Keybindings.Store.LoadWritable | apps/server/src/keybindings.ts:317-358 | the same rules for writing; a malformed file is refused |
| Keybindings.Store.WriteConfig | apps/server/src/keybindings.ts:404-423 | replaces the whole file, or refuses too many rules and changes nothing |
| Keybindings.Store.GetSnapshot | apps/server/src/keybindings.ts:432-441 | the cache, filled from disk if empty |
| Keybindings.Store.SyncDefaultKeybindings | apps/server/src/keybindings.ts:451-546 | the loop leaves the file the specification names and an empty cache, or changes nothing |
| Keybindings.Store.UpsertKeybindingRule | apps/server/src/keybindings.ts:619-658 | the new file, and a cache with its bindings, coherent in its issues exactly if the rule is accepted |
| Keybindings.Store.RemoveKeybindingRule | apps/server/src/keybindings.ts:659-681 | the file without the rule and a coherent cache |
| Keybindings.Store.RevalidateAndEmit | apps/server/src/keybindings.ts:443-449 | the cache is a fresh load again and subscribers are sent it |
| Keybindings.Store.Serve | apps/server/src/keybindings.ts:425-681 | after any mix of syncs, upserts, removals, reads and revalidations the cached bindings are a fresh load's, and the issues too if every rule put in is accepted |
| ConfirmDialog.LiveWithout | apps/web/src/confirmDialog.ts:64-69 | taking one live registration away lowers the count of live hosts by one |
| ConfirmDialog.AnsweredOnce | apps/web/src/confirmDialog.ts:36-43 | in an ordered log no request is answered twice or both answered and outstanding |
| ConfirmDialog.Dialog.ResolvePending | apps/web/src/confirmDialog.ts:36-43 | answers what is shown and then the queue, in order, all alike |
| ConfirmDialog.Dialog.RegisterHost | apps/web/src/confirmDialog.ts:60-62 | a new registration counts once |
| ConfirmDialog.Dialog.UnregisterHost | apps/web/src/confirmDialog.ts:64-73 | only the first clean-up counts; with the last host everything outstanding is answered no, in order, and the dialog is idle |
| ConfirmDialog.Dialog.RequestConfirm | apps/web/src/confirmDialog.ts:80-102 | refused exactly without a host, else last among the outstanding and shown at once if the dialog was idle |
| ConfirmDialog.Dialog.RespondToConfirm | apps/web/src/confirmDialog.ts:104-111 | answers exactly the first outstanding request, only while confirming |
| ConfirmDialog.Dialog.CompleteClosing | apps/web/src/confirmDialog.ts:113-124 | shows the next outstanding request or becomes idle, and loses none |
| ConfirmDialog.Dialog.Run | apps/web/src/confirmDialog.ts:60-124 | over any events answers stand, none is given twice, and without hosts every accepted request has been answered in request order |

## Left out

- Power loss, flushing and the Windows flush errors of the launcher: a death keeps every completed file operation.
- The stop marker and the restart-pending marker of the launcher, and its log and reason texts.
- The installed runtimes change only while no launcher runs.
- One database path per data root: the path stored with an update is taken to be the same each time.
- Children are taken to die with the launcher, update ids to be fresh, and an installation to start with no update recorded; build metadata does not order versions.
- ServiceLauncher.Host.PathExists: what it looks for is handed in, so the file names behind it are not modelled.
- Timestamps, command ids and error wording of sessions, and other payload fields, which both writes keep.
- Reconciliation.Stores.ClearContinuationMarkers: the threads are cleared one after the other, while the source clears them concurrently; the given ids are distinct there.
- What the projection shows of a turn is not tied to what the provider does, so the turn in progress is the one the session or its provider is in.
- Interruption of a fiber is modelled only where the continuation is sent; elsewhere it is a death of the process.
- The gate, the lock and the theme stream are step machines over values and not classes, since their steps belong to concurrent fibers or processes.
- Fairness and timeouts of the lock: a contender may give up at any time the source could.
- LocalDaemon.Operate: bodies run whole and one after the other; DaemonProtocol interleaves their steps, without their results and error codes.
- LocalDaemon.DataRoot.SpawnAndWait: ending a daemon that does not get ready is taken to work, as is the forced kill of a stop; a live daemon is taken to keep its record and port.
- HTTP, credentials and port probing: their outcomes are handed in, as is the port the system offers; an injected port chooser is not modelled.
- A theme refresh is not interrupted between updating the state and publishing; decoding of theme files is not modelled.
- Keys of usage-limit sources, whose plaintext on disk is not moved to the store.
- Secrets are named by the pair of instance and variable; that the encoded names of different pairs differ is an assumption, and a failing secret store is not modelled.
- Decoding of settings with defaults is represented by the overlay; a default set to undefined, or a key written as undefined, is represented by its absence.
- Normalisation of attachment paths: names are plain.
- Text.Lower: case folding and trimming are those of ASCII letters and white space only.
- Built-in sorting: process ids are sorted by taking least elements, and dependencies are visited in any order.
- DependencyLicenses.Collection.VisitManifest: a visited entry is the pair of bundle and directory instead of their joined text; a package without a name is not resolved by name and so never recorded.
- ProcessTree.StopProcessTree: the Windows branch only; the kill itself is not modelled, and the process-group branch is left out.
- Parsing of conditions is a parameter of the rule language. File watching and change streams are represented by the list of published states, and edits from outside by revalidation.
- Read errors of the keybindings file, which leave file and cache alone, and repeated calls of start.
- Listeners of the confirmation dialog and the reset meant for tests.
- Lint rules, build configuration, smoke scripts, appearance code and layer wiring hold no such properties.
