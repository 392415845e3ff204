# Rollback-bound activations

A Dafny model of the activation protocols in `sources/myuna-deploy/scripts`: programs that change
files, systemd units and containers step by step, keep a durable record of what they do, and promise
that an interrupted change can be undone. The theorems quantify over every run: every order of calls,
every crash or exception, every answer of the environment.

`dafny verify dfyconfig.toml` checks the whole project.

## Reading guide

The phase-F transaction is the centre. Its parts build on each other:

- `PhaseFWorld` is the host: six files with their temporary names, three units, the unit configuration
  systemd has loaded, the container under its canonical or archive name; and the container primitives.
- `PhaseFBackend` is what `Generation13LiveBackend` observes, applies, compensates and restores.
  `PhaseFLiveBackend` holds the class, with its two mutable fields, proved to compute it.
- `PhaseFProgram` describes the host part-way through (`Midway`), shows that each operation and each
  compensation moves it to the neighbouring state, and that the guards hold along the fixed programs.
  `PhaseFForwardOld` does so for the forward-to-old path.
- `PhaseFJournal` is the hash-chained journal and its transition check. `PhaseFDriver` is one call of
  each of the three drivers under a fault. `PhaseFTransaction` holds the class with the journal.
- `PhaseFInvariant` relates journal and host over every run. `PhaseFTheorems`, `PhaseFLiveness` and
  `PhaseFDeadlock` say what follows: what is always true, what comes to an end, and what never can.
- `PhaseFRebuild` is about a backend built again after a crash; `PhaseFContainers` about the old
  container under arbitrary calls; `AtomicPublish` about one file write, system call by system call.

The other protocols stand alone: `Convergence`, `AttemptLedger`, `RestartProjection` and
`P01BActivation` for the P01-B controller, `OwnerProfile` for the read and write activators,
`EpochRollover`, `DefinitionRegistry` and `PadTranscript`. For the three activators with exception
handlers there is a step machine, over which the crash-point theorems quantify, and a class whose
methods are proved to follow it.

## What turned out false

Each natural reading below fails for the code as it is; the theorem named gives the exact condition.

- The drivers keep their own journal acceptable: not when a completed rollback does not see the old
  health (`StepKeepsJournal`, `ClosesOnlyUnhealthy`).
- The activation can complete: only if all units were inactive when the backend was built and the network
  is expected to have no members (`WriterReachable`); the second fails with every old container that was
  running on the network (`RunningMemberBlocks`). Resumed all the same, it comes to a point from which no
  call of any driver moves anything again (`BlockedForever`; `StuckIff` lists all such points).
- TERMINAL_OLD means the state before the activation: only for the backend that took the snapshots. One
  rebuilt after a crash takes new ones, so it means what the last backend found (`LastSnapshotIsOld`), which
  is the state of before exactly if the crash had left that in place (`RebuiltRestoresIff`), past the writer
  exactly after thirteen forward steps (`RebuiltForward`).
- A backend can be built again after a crash: see `RebuildAdmitted`.
- A cut publish can be repaired by the drivers: never (`LeftTempForever`). A backend rebuilt after a cut
  restore gets past it, by taking the file that was not restored for the old one (`RebuiltRollback`,
  `RebuiltSkipsRestore`).
- A receipt proves an activation: see `RolledBackIsPrestate` for P01-B, `ReadReceiptTrueIff` and
  `RolledBackReceiptIff` for the read activator. For the write activator it does (`CommitPoint`,
  `ReceiptsAreKept`).
- A rollover that failed before mutation left Telegram running: see `EndedIsOld`.
- The P01-B rollback command can be used: see `RollbackNeverAdmitted`.
- A failed Definition activation changes nothing: see `FailureAfterSwap` for when it does, `CutAgreesIff` for
  when registry and pointers then disagree, `ReplayRepairs` and `OtherRepairsIff` for what mends them.
- `previous_version` belongs to `previous_release_id`: see `VersionsAgreeIff`.
- `_pad_transcript` hits its target whenever it returns: see `TargetHitIff`.

## Assumptions

- Digests are collision free: a digest remembers what it was taken of, or contents are compared directly.
- A systemctl start or stop that returns determines the unit's tuple; one that raises happened or did not.
- The frozen units are cleanly active or cleanly inactive, the frozen old container is running or
  stopped, and its plan digest is not that of the plan being activated (`WellFrozen`).
- systemd asks for a reload exactly when a unit-configuration file on disk differs from what is loaded.
- The identity of the network is opaque and does not change. Its members are the running containers that
  are attached to it: this plan's, and foreign ones that stay the same. A container's own network settings
  do not change.
- A torn journal file lacks the closing newline, so no reader parses it.
- Paths are distinct and hold regular files or nothing; nobody else writes to them, except where drift
  is modelled. The clock of the convergence loop is a whole number of milliseconds.
- Telegram's start uses the unit configuration that is loaded at that moment.

## Model

| member | source | states |
|---|---|---|
| PhaseFTheorems.BuiltIsInitial | sources/myuna-deploy/scripts/activate_p07_d_generation13_v1.py:730-769 | a backend built on any settled host, before its first operation, is a start of the runs quantified over below |
| PhaseFInvariant.StepInv | sources/myuna-deploy/scripts/p07_d_activation_transaction.py:665-857 | whatever a driver call, a fault and the environment do, the journal and the host stay related as `Inv` says: the host is exactly the part-way state the journal names, or one dispatched operation away from it |
| PhaseFInvariant.RunInv | sources/myuna-deploy/scripts/p07_d_activation_transaction.py:665-857 | the same over every run of calls, faults and health changes |
| PhaseFTheorems.TerminalOldIsOld | sources/myuna-deploy/scripts/p07_d_activation_transaction.py:757-769 | over every run of one backend, a journal that ends in TERMINAL_OLD means six files byte- and metadata-exact, three unit tuples, the old container under its own name, and loaded unit configuration equal to disk where it was so at first; only its health is left open (several backends: `LastSnapshotIsOld`) |
| PhaseFTheorems.WriterAtMostOnce | sources/myuna-deploy/scripts/p07_d_activation_transaction.py:704-709 | over every run the writer is called at most once, after its dispatch record and after all eighteen operations were recorded DESIRED |
| PhaseFTheorems.WriterSeesTarget | sources/myuna-deploy/scripts/p07_d_activation_transaction.py:704-709 | at the call of the writer every operation is in effect on the host |
| PhaseFTheorems.PastWriterOnlyForward | sources/myuna-deploy/scripts/p07_d_activation_transaction.py:680-680 | after the dispatch record, resuming and rolling back change nothing |
| PhaseFTheorems.StepKeepsJournal | sources/myuna-deploy/scripts/p07_d_activation_transaction.py:757-765 | every driver call leaves a journal that the transition check accepts, if and only if it is not a rollback that closes as ambiguous with everything compensated (the check takes only TERMINAL_OLD there) |
| PhaseFTheorems.ClosesOnlyUnhealthy | sources/myuna-deploy/scripts/p07_d_activation_transaction.py:757-765 | that failing case occurs exactly when the old container's health differs from its frozen health at the final observation |
| PhaseFTheorems.UnreadableForever | sources/myuna-deploy/scripts/p07_d_activation_transaction.py:625-643 | a journal that is torn or not accepted is never touched again, nor is the host |
| PhaseFLiveness.RollbackProgress | sources/myuna-deploy/scripts/p07_d_activation_transaction.py:735-796 | each fault-free rollback call brings the rollback one call closer to its end, in any environment |
| PhaseFLiveness.RollbackCompletes | sources/myuna-deploy/scripts/p07_d_activation_transaction.py:726-796 | from any admissible point the computed number of fault-free calls compensates everything; the journal ends TERMINAL_OLD if and only if the frozen health is back, and is otherwise lost |
| PhaseFLiveness.RollbackOfStopped | sources/myuna-deploy/scripts/p07_d_activation_transaction.py:757-769 | with a container that was frozen stopped, an undisturbed rollback always ends TERMINAL_OLD with the full old state: its health cannot have moved |
| PhaseFLiveness.RollbackCalls | sources/myuna-deploy/scripts/p07_d_activation_transaction.py:735-796 | after k operations that number is 3k + 2 |
| PhaseFLiveness.InterruptedRunRollsBack | sources/myuna-deploy/scripts/p07_d_activation_transaction.py:726-796 | after any run, however faulty, that leaves the journal readable, no temporary name and a rollback admissible, files, units and loaded configuration come back |
| PhaseFLiveness.ActivationProgress | sources/myuna-deploy/scripts/p07_d_activation_transaction.py:681-703 | with all units frozen inactive, no members expected on the network and a healthy environment, each fault-free call advances the activation by one; `WriterReachable` shows that the first two are needed |
| PhaseFLiveness.ActivationCompletes | sources/myuna-deploy/scripts/p07_d_activation_transaction.py:681-703 | so it reaches the announcement of the writer in the computed number of calls |
| PhaseFLiveness.ForwardProgress | sources/myuna-deploy/scripts/p07_d_activation_transaction.py:798-857 | each fault-free forward-to-old call advances once the old container's health and readiness come back, whether it was frozen running or stopped |
| PhaseFLiveness.ForwardCompletes | sources/myuna-deploy/scripts/p07_d_activation_transaction.py:798-857 | so in the computed number of calls the journal closes TERMINAL_OLD with the full old state observed, the reload done and the startup recovery noted, meeting no AMBIGUOUS |
| PhaseFLiveness.ForwardWaits | sources/myuna-deploy/scripts/activate_p07_d_generation13_v1.py:1204-1209 | while the old container is not at its frozen health the startup-recovery step changes nothing: unlike the rollback it loses nothing |
| PhaseFDeadlock.BlockedNeverDone | sources/myuna-deploy/scripts/activate_p07_d_generation13_v1.py:844-849 | over every run, an operation that is blocked is never recorded as done and the writer is never called: the start of a unit frozen active is seen as AMBIGUOUS, which is outside the driver's vocabulary, and the target is not created on a network that is expected to have members |
| PhaseFDeadlock.BlockedStalls | sources/myuna-deploy/scripts/p07_d_activation_transaction.py:747-749 | once a blocked operation is dispatched, no call of any driver changes journal or host: resuming raises, and an operation in flight keeps the rollback from starting |
| PhaseFDeadlock.BlockedForever | sources/myuna-deploy/scripts/p07_d_activation_transaction.py:665-857 | the same over every run, with every fault |
| PhaseFDeadlock.StuckIff | sources/myuna-deploy/scripts/p07_d_activation_transaction.py:665-857 | of the states in which a run leaves the transaction with an accepted journal, exactly these are stuck for ever: torn, closed, a temporary name left behind, or a blocked operation in flight that is not in effect; from every other one some calls move the journal |
| PhaseFDeadlock.WriterReachable | sources/myuna-deploy/scripts/telegram_r5_boot_resume.py:1245-1246 | some run reaches the writer if and only if every unit was frozen inactive and the network is expected to have no members |
| PhaseFDeadlock.RunningMemberBlocks | sources/myuna-deploy/scripts/activate_p07_d_generation13_v1.py:756-759 | in particular no run does if the old container was frozen running on the network: the constructor then demands it as a member |
| PhaseFDeadlock.LeftTempStalls | sources/myuna-deploy/scripts/activate_p07_d_generation13_v1.py:637-660 | a temporary name left by a cut publish stops every driver call from changing anything |
| PhaseFDeadlock.LeftTempForever | sources/myuna-deploy/scripts/activate_p07_d_generation13_v1.py:637-660 | the same over every run |
| PhaseFRebuild.RebuildAdmitted | sources/myuna-deploy/scripts/activate_p07_d_generation13_v1.py:718-759 | the constructor accepts a part-way host exactly if a target, when there is one beside the archived container, is running, and otherwise if stopping the old container took no member off the network |
| PhaseFRebuild.RebuiltMidway | sources/myuna-deploy/scripts/activate_p07_d_generation13_v1.py:760-769 | the host left by a crash, at any point of the activation, its rollback or the forward path, is a part-way state for a backend built on it, with what that backend finds in the place of what was there at first |
| PhaseFRebuild.RebuiltTracked | sources/myuna-deploy/scripts/activate_p07_d_generation13_v1.py:687-769 | a rebuild keeps the invariant of all runs, with the new snapshots; where a cut restore left a temporary name, as far as the rest of the host goes |
| PhaseFRebuild.RunBlind | sources/myuna-deploy/scripts/p07_d_activation_transaction.py:757-790 | once a rollback or the forward path has begun, a backend that finds every file as it snapshotted it runs the same whatever temporary names are there |
| PhaseFRebuild.LivesTracked | sources/myuna-deploy/scripts/activate_p07_d_generation13_v1.py:687-769 | the invariant holds over any number of crashes, each followed by a rebuild and any run of calls and faults |
| PhaseFRebuild.LastSnapshotIsOld | sources/myuna-deploy/scripts/p07_d_activation_transaction.py:757-769 | over all of these, TERMINAL_OLD means the files and units that the last backend found when it was built |
| PhaseFRebuild.RebuiltRollback | sources/myuna-deploy/scripts/p07_d_activation_transaction.py:726-796 | before the writer, in the activation or in the middle of a rollback, also where a cut restore left its temporary name: a rebuilt backend compensates everything, leaving the files and units as the crash left them, and records TERMINAL_OLD if and only if the frozen health is back |
| PhaseFRebuild.RebuiltForward | sources/myuna-deploy/scripts/p07_d_activation_transaction.py:798-857 | past the writer, a rebuilt backend goes forward to TERMINAL_OLD with the files and units that the crash left, which are the original ones if and only if thirteen of the forward steps had been done |
| PhaseFRebuild.OriginalsBackIff | sources/myuna-deploy/scripts/p07_d_activation_transaction.py:306-318 | where the writer can be reached at all, original files and units are in place after n forward steps if and only if n is at least 13 |
| PhaseFRebuild.RebuiltRestoresIff | sources/myuna-deploy/scripts/activate_p07_d_generation13_v1.py:760-768 | whatever a rebuilt backend goes through until it records TERMINAL_OLD, in any mode and with any faults, that is the state before the activation if and only if the crash had left its files and units in place |
| PhaseFRebuild.RebuiltUnblocks | sources/myuna-deploy/scripts/activate_p07_d_generation13_v1.py:844-849 | a backend rebuilt while the units are stopped sees them all frozen inactive, and the host's units are then the original ones only if they all were |
| PhaseFRebuild.RebuiltSkipsRestore | sources/myuna-deploy/scripts/p07_d_activation_transaction.py:773-777 | how the original is lost: a compensation dispatched for a published file is recorded as done by the rebuilt backend in one call, and the published file stays |
| PhaseFRebuild.ReloadAfterFiles | sources/myuna-deploy/scripts/p07_d_activation_transaction.py:295-305 | compensating the reload after the files, as the program does, leaves the old unit configuration on disk and loaded; the reload first, as in strict reverse order, leaves a reload pending exactly when the activation changed any of it |
| PhaseFContainers.CallKeepsOld | sources/myuna-deploy/scripts/activate_p07_d_generation13_v1.py:829-838 | no single apply, compensate or forward call, in any state and with any fault, loses or alters the old container |
| PhaseFContainers.OldNeverLost | sources/myuna-deploy/scripts/activate_p07_d_generation13_v1.py:988-1028 | over any sequence of calls in any order the old container stays under exactly one of its two names |
| PhaseFProgram.ForwardStep | sources/myuna-deploy/scripts/activate_p07_d_generation13_v1.py:896-938 | each of the eighteen operations, applied where its guard holds, takes effect and is seen as DESIRED; AMBIGUOUS is met exactly at the start of a unit frozen active, and creating the target raises without effect exactly where members are expected on the network |
| PhaseFProgram.CompensationStep | sources/myuna-deploy/scripts/activate_p07_d_generation13_v1.py:948-1028 | each compensation, where its guard holds, is never seen as AMBIGUOUS and takes exactly its operation back |
| PhaseFProgram.AlreadyApplied | sources/myuna-deploy/scripts/activate_p07_d_generation13_v1.py:840-889 | an operation whose return was lost is not applied twice |
| PhaseFProgram.AlreadyCompensated | sources/myuna-deploy/scripts/activate_p07_d_generation13_v1.py:948-986 | a compensation whose return was lost is seen as OLD; a reload on a host that was not up to date at first may be run once more, to the same end |
| PhaseFProgram.FullyCompensated | sources/myuna-deploy/scripts/activate_p07_d_generation13_v1.py:1125-1147 | with nothing in effect files and units are the frozen ones, no reload is pending if none was at first, and the full-old observation answers OLD if and only if the health is the frozen one |
| PhaseFProgram.ProgramEnabled | sources/myuna-deploy/scripts/p07_d_activation_transaction.py:275-294 | every operation's guard holds at its place in the program |
| PhaseFProgram.RollbackOrdered | sources/myuna-deploy/scripts/p07_d_activation_transaction.py:295-305 | compensation covers exactly the completed operations, in the fixed order |
| PhaseFProgram.RollbackLength | sources/myuna-deploy/scripts/p07_d_activation_transaction.py:739-742 | once each |
| PhaseFProgram.RollbackUndoable | sources/myuna-deploy/scripts/p07_d_activation_transaction.py:295-305 | every compensation's guard holds at its place, for every number of completed operations |
| PhaseFProgram.RollbackEnds | sources/myuna-deploy/scripts/p07_d_activation_transaction.py:295-305 | after the last one nothing is left in effect |
| PhaseFForwardOld.ForwardOldStep | sources/myuna-deploy/scripts/activate_p07_d_generation13_v1.py:1178-1250 | each of the twenty-two steps takes effect; AMBIGUOUS is met exactly while health or readiness is missing |
| PhaseFForwardOld.AlreadyRestored | sources/myuna-deploy/scripts/activate_p07_d_generation13_v1.py:1178-1216 | a forward step whose return was lost is seen as DESIRED, except that a startup recovery is run again if and only if the backend has not noted it, and a reload perhaps on a host that was not up to date at first |
| PhaseFForwardOld.ForwardBegins | sources/myuna-deploy/scripts/p07_d_activation_transaction.py:306-318 | forward-to-old starts where the whole program ends |
| PhaseFForwardOld.RecoverStep | sources/myuna-deploy/scripts/activate_p07_d_generation13_v1.py:1178-1250 | the first fifteen steps also work from arbitrary files, units and loaded configuration, with the target present, stopped or absent |
| PhaseFForwardOld.RecoverFromAnywhere | sources/myuna-deploy/scripts/activate_p07_d_generation13_v1.py:1149-1250 | from any such host with the old container archived the first fifteen steps meet no AMBIGUOUS and leave files, units and container old and loaded configuration equal to disk; the startup recovery is then admitted exactly at the frozen health |
| PhaseFForwardOld.RecoverToTheEnd | sources/myuna-deploy/scripts/activate_p07_d_generation13_v1.py:1149-1250 | and with health, readiness and a recovery that succeeds all twenty-two steps run from any such host to the full old state, the last six seen as DESIRED |
| PhaseFInvariant.ResumeInv | sources/myuna-deploy/scripts/p07_d_activation_transaction.py:665-713 | a resume call keeps the journal accepted and the host where it says, under every fault |
| PhaseFInvariant.RollbackInv | sources/myuna-deploy/scripts/p07_d_activation_transaction.py:726-796 | a rollback call does so too, except that it poisons the journal in the one case named by `ClosesAmbiguous` |
| PhaseFInvariant.ForwardInv | sources/myuna-deploy/scripts/p07_d_activation_transaction.py:798-857 | a forward-to-old call does so too |
| PhaseFInvariant.PoisonedIsRejected | sources/myuna-deploy/scripts/p07_d_activation_transaction.py:592-598 | a compensated rollback closed as ambiguous is rejected by the transition check |
| PhaseFInvariant.RollbackReads | sources/myuna-deploy/scripts/p07_d_activation_transaction.py:716-756 | what the rollback driver filters out of an accepted journal is what the transition check tracked, so its own order checks never fail |
| PhaseFInvariant.ForwardReads | sources/myuna-deploy/scripts/p07_d_activation_transaction.py:798-826 | likewise for the forward driver |
| PhaseFJournal.ValidateTransitions | sources/myuna-deploy/scripts/p07_d_activation_transaction.py:532-622 | the loop accepts exactly the journals that the step function accepts, record by record |
| PhaseFJournal.AppendAccepted | sources/myuna-deploy/scripts/p07_d_activation_transaction.py:505-523 | appending keeps a journal accepted if and only if the new record parses and is the one expected |
| PhaseFJournal.LastPinsHistory | sources/myuna-deploy/scripts/p07_d_activation_transaction.py:625-643 | two linked journals with the same newest record are the same journal |
| PhaseFJournal.AcceptedView | sources/myuna-deploy/scripts/p07_d_activation_transaction.py:716-756 | on every accepted journal the newest record, the filtered sequences and the transition check's variables determine each other |
| PhaseFTransaction.Transaction.ReadChain | sources/myuna-deploy/scripts/p07_d_activation_transaction.py:625-643 | the chain reader succeeds exactly on untorn, gap-free, linked, well-formed journals that pass the transition check |
| PhaseFTransaction.Transaction.ResumeOnce | sources/myuna-deploy/scripts/p07_d_activation_transaction.py:665-713 | computes `ResumeCall` on journal, host and stored fields |
| PhaseFTransaction.Transaction.RollbackOnce | sources/myuna-deploy/scripts/p07_d_activation_transaction.py:726-796 | computes `RollbackCall` |
| PhaseFTransaction.Transaction.ForwardOldOnce | sources/myuna-deploy/scripts/p07_d_activation_transaction.py:798-857 | computes `ForwardCall` |
| PhaseFTransaction.Transaction.InvokeWriter | sources/myuna-deploy/scripts/p07_d_activation_transaction.py:704-709 | called where the journal announces the writer, it keeps the invariant under every fault; no call had been made before, at most one is made, and only with the dispatch record in the journal |
| PhaseFTransaction.WriterOnce | sources/myuna-deploy/scripts/p07_d_activation_transaction.py:704-709 | the same for the function that the theorems are about |
| PhaseFTransaction.WriteTaken | sources/myuna-deploy/scripts/p07_d_activation_transaction.py:505-523 | after a journal write under any fault, a reader accepts the directory exactly if nothing was written, or the whole record was and it is well formed and the one expected there |
| PhaseFLiveBackend.LiveBackend.Build | sources/myuna-deploy/scripts/activate_p07_d_generation13_v1.py:687-769 | succeeds exactly on hosts where the old container is in one place, a container beside the archived one is this plan's target, and the network has the expected members and that target; it then snapshots files and units as it finds them |
| PhaseFLiveBackend.LiveBackend.ObserveOperation | sources/myuna-deploy/scripts/activate_p07_d_generation13_v1.py:840-889 | computes `Observe` and stores the target observation as `Refresh` says |
| PhaseFLiveBackend.LiveBackend.ApplyOperation | sources/myuna-deploy/scripts/activate_p07_d_generation13_v1.py:896-938 | on every part-way host where its guard holds and it is seen as OLD, the call returns with the operation in effect and seen as DESIRED; where the operation is blocked it raises and changes nothing |
| PhaseFLiveBackend.LiveBackend.ObserveCompensation | sources/myuna-deploy/scripts/activate_p07_d_generation13_v1.py:948-986 | tells a host on which an operation is to be taken back from one on which it has been, never answering AMBIGUOUS where the guard holds; OLD means that it is out of effect |
| PhaseFLiveBackend.LiveBackend.CompensateOperation | sources/myuna-deploy/scripts/activate_p07_d_generation13_v1.py:988-1028 | where the guard holds and it is seen as DESIRED, the call returns with exactly that operation taken back and seen as OLD |
| PhaseFLiveBackend.LiveBackend.ObserveForwardOld | sources/myuna-deploy/scripts/activate_p07_d_generation13_v1.py:1178-1216 | along the forward path it answers AMBIGUOUS exactly while the step has to wait for health or readiness, and DESIRED only when the step is in effect |
| PhaseFLiveBackend.LiveBackend.ApplyForwardOld | sources/myuna-deploy/scripts/activate_p07_d_generation13_v1.py:1218-1250 | a forward step that is seen as OLD takes effect, and returns unless the startup recovery failed; it is then seen as DESIRED |
| PhaseFLiveBackend.LiveBackend.ObserveFullOld | sources/myuna-deploy/scripts/activate_p07_d_generation13_v1.py:1125-1147 | answers OLD exactly when files, units, container with health, and network are as frozen |
| AtomicPublish.Entry.WriteAll | sources/myuna-deploy/scripts/activate_p07_d_generation13_v1.py:648-650 | short writes place the payload in order; a failed write leaves a prefix of it in the temporary file only |
| AtomicPublish.Entry.PublishExclusive | sources/myuna-deploy/scripts/activate_p07_d_generation13_v1.py:637-663 | at every system call the path holds the old file or the whole new one with its owner and mode; a temporary name that exists makes it fail without change |
| AtomicPublish.Entry.ReplaceFile | sources/myuna-deploy/scripts/activate_owner_profile_write_v1.py:399-431 | the same with a fresh temporary name that never survives an exception |
| AtomicPublish.Entry.WriteNew | sources/myuna-deploy/scripts/activate_owner_profile_write_v1.py:434-473 | a file that exists is never overwritten |
| AtomicPublish.EndingIsFault | sources/myuna-deploy/scripts/activate_p07_d_generation13_v1.py:637-663 | every ending of the exclusive publish is one of the faults the drivers are proved against |
| Convergence.WaitForConvergence | sources/myuna-deploy/scripts/activate_p01b_p16_successor_v1.py:802-964 | on every trace it ends with the verdict that the declarative specification fixes, within timeout / poll + 1 polls |
| Convergence.DecidesOnce | sources/myuna-deploy/scripts/activate_p01b_p16_successor_v1.py:821-964 | at most one verdict fits a trace: convergence at the first poll that closes a long enough window of ready polls with one identity, failure at the first rejection or identity change, else timeout |
| Convergence.TooShort | sources/myuna-deploy/scripts/activate_p01b_p16_successor_v1.py:928-950 | no window within a maximal ready run is longer than the run |
| AttemptLedger.Ledger.AttemptRows | sources/myuna-deploy/scripts/activate_p01b_p16_successor_v1.py:1259-1296 | reads exactly the gap-free, chained ledgers of at most two files |
| AttemptLedger.Ledger.ConsumeAttempt | sources/myuna-deploy/scripts/activate_p01b_p16_successor_v1.py:1578-1616 | succeeds exactly on the ledger that holds the recovery attempt alone, and appends attempt 2 bound to the plan |
| AttemptLedger.ConsumedOnce | sources/myuna-deploy/scripts/activate_p01b_p16_successor_v1.py:1578-1616 | what is consumed is attempt 2 for its plan, the ledger then reads back with it, and nothing more can be consumed from that ledger under any bundle |
| AttemptLedger.ConsumedForOnePlan | sources/myuna-deploy/scripts/activate_p01b_p16_successor_v1.py:1350-1421 | what was consumed for a plan is accepted with that plan exactly when its prestate counted one attempt under the bundle's anchor, and with no other plan |
| AttemptLedger.AtMostOnePasses | sources/myuna-deploy/scripts/activate_p01b_p16_successor_v1.py:1578-1616 | under any interleaving of any number of activators, with crashes anywhere, at most one spends the attempt and the ledger only grows |
| AttemptLedger.OneActivationEver | sources/myuna-deploy/scripts/activate_p01b_p16_successor_v1.py:1578-1616 | whoever passes holds attempt 2, bound to its own plan |
| AttemptLedger.LedgerStaysReadable | sources/myuna-deploy/scripts/activate_p01b_p16_successor_v1.py:1259-1296 | over the race the ledger stays as it was or gains attempt 2 of one activator, chained to attempt 1, and then reads back with exactly these two under that activator's bundle; a ledger readable for the bundle of all of them stays so, with at most two rows |
| RestartProjection.BuiltIsStable | sources/myuna-deploy/scripts/activate_p01b_p16_successor_v1.py:967-1001 | every projection that is built is accepted by the restart-stable normaliser |
| RestartProjection.ConvergesIff | sources/myuna-deploy/scripts/activate_p01b_p16_successor_v1.py:1004-1092 | the post-restart check passes exactly when the projections agree on every field but the startup digest and the current one is that of the epoch that is there |
| RestartProjection.AnchorPinsEpoch | sources/myuna-deploy/scripts/activate_p01b_p16_successor_v1.py:623-630 | two accepted projections lie under the same anchor exactly when they hold the same epoch |
| RestartProjection.ChainedChecks | sources/myuna-deploy/scripts/activate_p01b_p16_successor_v1.py:1078-1092 | chained checks compose and stay at one epoch |
| RestartProjection.RollbackConvergesIff | sources/myuna-deploy/scripts/activate_p01b_p16_successor_v1.py:1835-1846 | the rollback's own check forgives exactly the startup digest and the attempt count |
| P01BActivation.AlwaysSafe | sources/myuna-deploy/scripts/activate_p01b_p16_successor_v1.py:1939-1979 | at every crash point the marker implies the whole target, any part of the target implies the selector, and Telegram runs only on an entirely old or new configuration, on disk and loaded |
| P01BActivation.RolledBackIsPrestate | sources/myuna-deploy/scripts/activate_p01b_p16_successor_v1.py:1854-1869 | a rollback that ends restores everything; an activation receipt is left beside it exactly when the receipt step raised after its effect |
| P01BActivation.ReceiptMayLie | sources/myuna-deploy/scripts/activate_p01b_p16_successor_v1.py:1980-2008 | and from every host one step short of its receipt there is such a run |
| P01BActivation.RollbackEnds | sources/myuna-deploy/scripts/activate_p01b_p16_successor_v1.py:1849-1902 | an undisturbed rollback reaches its end from every point |
| P01BActivation.RollbackNeverAdmitted | sources/myuna-deploy/scripts/activate_p01b_p16_successor_v1.py:2054-2054 | from every ledger and host and over every run, which begins by consuming an attempt from the ledger: an activation receipt that is added is number 2, which the ledger then holds for this plan, and the receipt of attempt 1, which the rollback command demands, appears only if it was there before |
| P01BActivation.SecondIsRefused | sources/myuna-deploy/scripts/activate_p01b_p16_successor_v1.py:1935-1935 | once an activation has consumed its attempt, however it went on, a second one changes nothing, whatever its bundle and plan |
| P01BActivation.Activator.Activate | sources/myuna-deploy/scripts/activate_p01b_p16_successor_v1.py:1935-2036 | the program consumes its attempt from the ledger, takes a path of the step machine with the number it got and its own mutation flag, ends safe, and does not change whether the rollback command is admitted |
| P01BActivation.Activator.RestorePrestate | sources/myuna-deploy/scripts/activate_p01b_p16_successor_v1.py:1849-1902 | the rollback does so too |
| OwnerProfile.Directory.RestoreFiles | sources/myuna-deploy/scripts/activate_owner_profile_write_v1.py:603-631 | restores a prefix of the paths up to the first drifted one or the first failure, restores all exactly when nothing drifted, and never touches a drifted path |
| OwnerProfile.RestoreIsResumable | sources/myuna-deploy/scripts/activate_owner_profile_read_v1.py:573-600 | a restore that was cut short finds no drift when it is run again |
| OwnerProfile.CrashAtomic | sources/myuna-deploy/scripts/activate_owner_profile_write_v1.py:723-868 | over any activations cut anywhere: without a journal the files are exactly the newest generation, with one every path is on one of two sides |
| OwnerProfile.GenerationsAreOffered | sources/myuna-deploy/scripts/activate_owner_profile_write_v1.py:723-868 | every generation is what was there at first or one activation's whole candidate set |
| OwnerProfile.PendingJournalBlocks | sources/myuna-deploy/scripts/activate_owner_profile_write_v1.py:651-658 | while a journal exists no activation changes anything |
| OwnerProfile.CommitPoint | sources/myuna-deploy/scripts/activate_owner_profile_write_v1.py:821-833 | from the start of the receipt on, whatever happens, the write activator never rolls its files back |
| OwnerProfile.ReceiptsAreKept | sources/myuna-deploy/scripts/activate_owner_profile_write_v1.py:434-473 | the write activator never replaces a receipt, and one that it adds vouches for the files in place |
| OwnerProfile.ReceiptsSurvive | sources/myuna-deploy/scripts/activate_owner_profile_write_v1.py:434-473 | the same over every run |
| OwnerProfile.ReadReceiptTrueIff | sources/myuna-deploy/scripts/activate_owner_profile_read_v1.py:711-734 | over every run of the read activator, whenever no activation is pending: the receipt is that of the last session that issued one, and it names the files in place if and only if that session completed or changed nothing; with no session that issued one the receipt of before is untouched |
| OwnerProfile.RolledBackReceiptIff | sources/myuna-deploy/scripts/activate_owner_profile_read_v1.py:716-734 | a session that was rolled back has its receipt if and only if the exception came when the receipt was in place: late in writing it, or in removing the journal |
| OwnerProfile.ReadReceiptMayLie | sources/myuna-deploy/scripts/activate_owner_profile_read_v1.py:711-734 | both of these happen: from every activation that has reached its receipt, an undisturbed rollback after an exception there leaves the receipt, which is then true exactly when the activation was to change nothing |
| OwnerProfile.Activator.Activate | sources/myuna-deploy/scripts/activate_owner_profile_write_v1.py:723-868 | the program of either activator takes a path of the step machine; success means all candidates, a receipt and no journal; failure without a journal means the files of before |
| OwnerProfile.Activator.RollBack | sources/myuna-deploy/scripts/activate_owner_profile_read_v1.py:563-611 | the handler restores path by path and removes the journal last |
| OwnerProfile.Activator.Commit | sources/myuna-deploy/scripts/activate_owner_profile_write_v1.py:821-833 | the receipt and the journal's removal, with and without a commit point |
| EpochRollover.AlwaysSafe | sources/myuna-deploy/scripts/activate_p07_external_epoch_rollover_v1.py:823-861 | at every crash point of any number of attempts: target drop-in implies selector, selector implies sealed old epoch and new directory, and Telegram runs only on an entirely old or new configuration |
| EpochRollover.NewEpochPersists | sources/myuna-deploy/scripts/activate_p07_external_epoch_rollover_v1.py:574-578 | a new epoch directory, once made, stays over every run, through rollbacks, crashes and further attempts |
| EpochRollover.OneShot | sources/myuna-deploy/scripts/activate_p07_external_epoch_rollover_v1.py:574-578 | and from any point outside the activation that made it, in its rollback, after a crash or at rest, no activation ever starts again or goes live |
| EpochRollover.EndedIsOld | sources/myuna-deploy/scripts/activate_p07_external_epoch_rollover_v1.py:676-701 | a run that ends after a failure has the old configuration; Telegram runs unless the stop raised after its effect |
| EpochRollover.FailedBeforeMutationMayBeStopped | sources/myuna-deploy/scripts/activate_p07_external_epoch_rollover_v1.py:823-824 | in that case the journal says that nothing was mutated |
| EpochRollover.ActiveJournalMayLie | sources/myuna-deploy/scripts/activate_p07_external_epoch_rollover_v1.py:893-896 | a journal says active during a rollback exactly when the run had been recorded before it failed |
| EpochRollover.Rollover.Activate | sources/myuna-deploy/scripts/activate_p07_external_epoch_rollover_v1.py:809-927 | the program, with its two flags, takes a path of the step machine and ends safe; it refuses exactly without the live prestate |
| EpochRollover.Rollover.RestorePrestate | sources/myuna-deploy/scripts/activate_p07_external_epoch_rollover_v1.py:676-701 | the rollback does so too, restoring permissions exactly when sealing had begun |
| DefinitionRegistry.DefinitionStore.Activate | sources/myuna-deploy/scripts/activate_definition_release.py:120-219 | rewrites the registry and swaps the pointers as `ActivatedUntil` says, also when it fails part-way or is cut before, between or after the two swaps and the registry write |
| DefinitionRegistry.RewriteEntries | sources/myuna-deploy/scripts/activate_definition_release.py:198-205 | the in-place loop moves the environment to exactly the selected release, or stops at an entry that is not a list |
| DefinitionRegistry.FindPrior | sources/myuna-deploy/scripts/activate_definition_release.py:189-196 | collects the active releases in order |
| DefinitionRegistry.HistoryAgrees | sources/myuna-deploy/scripts/activate_definition_release.py:175-219 | over every history of requests that are not cut, registry and pointers agree, the active release is the only one active, and other environments' memberships do not move |
| DefinitionRegistry.AdmittedSucceeds | sources/myuna-deploy/scripts/activate_definition_release.py:189-197 | from an agreeing store the check after the swap never fails, so a request that is admitted and not cut succeeds |
| DefinitionRegistry.ReactivationIsNoOp | sources/myuna-deploy/scripts/activate_definition_release.py:198-219 | activating the active release again changes nothing |
| DefinitionRegistry.GoingBackRestores | sources/myuna-deploy/scripts/activate_definition_release.py:198-219 | activating another release and then the first again restores every entry and the pointer |
| DefinitionRegistry.FailureAfterSwap | sources/myuna-deploy/scripts/activate_definition_release.py:183-219 | a failed activation has moved a pointer exactly when it was admitted, the pointers were not there yet, and it failed after a swap: at a cut, or because the registry was out of order |
| DefinitionRegistry.CutAgreesIff | sources/myuna-deploy/scripts/activate_definition_release.py:183-219 | after a cut registry and pointers agree if and only if no pointer had moved yet or the registry had been written |
| DefinitionRegistry.ReplayRepairs | sources/myuna-deploy/scripts/activate_definition_release.py:175-219 | however often a request was cut, and wherever, making it once more gives exactly what it would have given at once, from any store where it succeeds |
| DefinitionRegistry.RetriedHistoryAgrees | sources/myuna-deploy/scripts/activate_definition_release.py:175-219 | so histories in which a cut request is repeated until it is through are the uncut histories, and agree |
| DefinitionRegistry.OtherRepairsIff | sources/myuna-deploy/scripts/activate_definition_release.py:183-219 | when another request mends what a cut left: between the swaps every one but the release still active; after both only the cut one, or going back to the active release if the cut one was the previous release |
| DefinitionRegistry.VersionsAgreeIff | sources/myuna-deploy/scripts/activate_definition_release.py:208-217 | `previous_version` keeps naming the version of `previous_release_id` unless a release replaces another one of its own version |
| PadTranscript.PadTranscript | sources/myuna-core/scripts/run_context_capacity_128_deepseek_qa.py:48-65 | the loop computes the greedy filling, and refuses exactly when characters are missing or left over |
| PadTranscript.PaddingSucceedsIff | sources/myuna-core/scripts/run_context_capacity_128_deepseek_qa.py:48-65 | for messages within the limit it succeeds exactly when the target lies between the total and the total plus the room before the last message, and then hits it |
| PadTranscript.PouredExtends | sources/myuna-core/scripts/run_context_capacity_128_deepseek_qa.py:56-62 | each message only grows by fill characters and stays within the limit; the last is unchanged |
| PadTranscript.PouredTotal | sources/myuna-core/scripts/run_context_capacity_128_deepseek_qa.py:53-62 | characters are conserved up to the excess of messages that were too long |
| PadTranscript.TargetHitIff | sources/myuna-core/scripts/run_context_capacity_128_deepseek_qa.py:57-60 | a padding that succeeds hits its target exactly if there is one message at most, or some first messages without the last, all within the limit, have room for all that is missing; otherwise it overshoots |

## Left out

- The strings that the drivers return are not modelled; the state after each call is.
- The initialisation of the journal directory is taken as complete: a crash between creating the attempt directory and its first record is not part of the model.
- Locking: the drivers hold an exclusive lock for a whole call, so a call is atomic towards other callers; within the P01-B ledger the lock is modelled step by step.
- Forward-to-old readiness and the startup recovery of the gateway's store are answers of the environment.
- Partial effects of systemd and Docker calls other than before or after are not modelled.
- A backend that is rebuilt while another process still uses the same attempt directory.
- Generations 7 to 12, the admission boundary of the transaction and the sealed-artifact verification: repetition, or checks without state.
- P01-B backups, artifact installation, marker and selector contents, container and mount projections, and the repeated verification after a rollback, beyond succeeding or raising.
- Owner profile: the write root's ownership change, capability directory and service restarts, beyond succeeding or raising; symbolic links at candidate paths.
- Epoch rollover: SQLite inspection and bundle digests; a seal is complete, partial or absent.
- Definition registry: the sorting of an entry's environment list, since memberships are sets; the contents of the activation record that is written last; temporary names left by a cut swap.
- JSON shapes, regular expressions, argument parsing and the fixed booleans of receipts.
