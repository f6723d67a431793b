# jailmachine, verified

A Dafny model of the parts of jailmachine (`jm`) that must not go wrong when
something else does: a virtual machine that is saved, killed, woken and recovered
in any order; the socket that a sleeping machine's clients still find; the port
mappings a crash must not leak; and the small algorithms underneath. To verify,
with Dafny 4.11: `dafny verify dfyconfig.toml`.

## What is modelled

**Suspend, wake and recovery** (`Suspend*.dfy`). A machine directory holds a
journal, a memory image and a partial image; beside it there is a hypervisor with
a guest, a pid file and the recorded command line. `SuspendSteps` is jm's side as
a program counter with one effect per step: prepare, commit, roll back, cancel,
discard, wake, recover, repair, boot and stop. Every call may fail, jm may be
killed between any two effects, the hypervisor may die, the journal may be found
damaged, and a power loss keeps any subset of the directory changes that no sync
has made durable (`World.survivors`). `SuspendInvariant` gives what every step
keeps; the results over whole runs are in `SuspendSafety`, `SuspendCoherence`,
`SuspendReckless` and `SuspendPairs`. Where a recovery and a suspend that gives up
leave the machine, whatever the hypervisor does meanwhile, is in `SuspendRecovery`,
`SuspendTable` and `SuspendUndo`. That each command does what it is for when its
calls succeed, however often it polls, is in `SuspendSave`, `SuspendWake`,
`SuspendBoot` and `SuspendStop`, over the turns of `SuspendTurns`; when a wake may
give a saved state up is in `SuspendRefusal`. `SuspendRuns` and `SuspendExamples`
lead from a machine that was never started to each of the states in which a
promise fails.

**The engine socket** (`ParkQueue`, `SocketPath`, `SuspendRollback`,
`SleeperMode`). The sleeper's stand-in takes the socket's path, parks clients and
hands them over after a wake; the forward helper takes the path back by rename
and knows its own socket by inode. The queue and the path are two step machines
whose events interleave freely, one mutex section or one "check the inode, then
act" per event. The rollback of a suspend and one evaluation of the mode table
are built from those steps, and `SuspendWayBack` puts the rollback of the machine
and that of the socket together.

**The forwarder** (`DesiredState`, `Publishing`, `Converge`, `AnchorMemo`).
Containers become mappings and guest redirects, and `Publishing` says which, from
the containers alone; the provider's table converges to them under a
persisted owned set; a memo stands in for guest state that is never read; a
debouncer carries the flag that bypasses the memo.

**Algorithms** (`Shares`, `OptionStrings`, `SavedArgv`, `SparseWriter`,
`IdleTracker`, with strings, sorting and numerals in `Order`).

Code that changes state step by step appears as classes and loops proved against
functions, and the results are lemmas about those functions. Where processes and
kills interleave, the function is a step of a state machine and a run is a
sequence of steps.

## Where the code does less than it says

Each of these has the exact condition under which the promise holds, and a
concrete case in which it does not.

- A cold boot is unsafe while an unlinked saved journal, not fingerprinted, could
  still come back by a power loss: the old image would then load beside a newer
  disk (`SuspendReckless`). It comes about when the sync after the unlink fails
  and the machine is started again. Every other step is safe.
- The sweep that recovery and a boot make for orphaned images can remove an image
  whose journal a power loss brings back; no commit, rollback, discard or wake
  does (`SuspendPairs`). The pair is then incomplete, which a later recovery finds.
- A journal that cannot be read is set aside before the guest is dealt with. If jm
  is killed right then, a guest that the save had frozen, or that a save still
  being sent will freeze, stays that way: recovery reports nothing to recover, or
  that it resumed the guest. A hypervisor that was once woken is looked at again,
  and only there does a guest frozen before its save began come back
  (`SuspendRecovery.RecoverResolves`, `SuspendSafety.RecoverActionIsTrue`,
  `SuspendExamples`).
- A suspend that cannot make its "saving" journal durable returns at once and
  leaves that journal under a running guest (internal/backend/qemu/suspend.go:191,
  internal/cli/suspend.go:314-319). The next recovery resolves it
  (`SuspendUndo.SuspendBacksOut`, `SuspendExamples.UnsyncedJournalStays`).
- A suspend whose hypervisor died before the endpoints were handed over, or after
  the last look at whether it lives, is reported as rolled back with the guest
  running (internal/cli/suspend.go:438-478; `SuspendUndo.SuspendBacksOut`,
  `SuspendExamples.DeadGuestIsRolledBack`).
- A forward started but killed before its inode was recorded makes the next
  `stopForward` take the stand-in's socket for its own (`SocketPath`).
- When saving the owned set fails, the running forwarder retries the expose
  without saving again, so a mapping can be live with no record of it
  (`Converge`).
- Redirect rules are merged by container alone, so one container publishing a
  guest port to two of its ports has one of them misdirected (`DesiredState`).
- A share nested in a share nested in a share can lose its mode (`Shares`).
- A forced reload of the guest's anchor whose container lookup fails is not made
  up for by the next timer resync, so successful resyncs alone do not bound the
  repair. A forced reload whose write fails is: the memo forgets
  (`AnchorMemo.RestoredExactlyOnceTried`).

## Model

| member | source | states |
|---|---|---|
| SuspendInvariant.StepKeeps | internal/backend/qemu/suspend.go:330-456 | every step of every command, hypervisor event, kill, damage or power loss keeps the invariant of the protocol |
| SuspendInvariant.RunKeeps | internal/backend/qemu/suspend.go:839-1076 | so does every run, of any length |
| SuspendSafety.SavedStateIsNeverContinuedTwice | internal/backend/qemu/suspend.go:21-27 | over every run no `cont` is sent while the journal reads saved; a restored guest is continued only once no power loss can bring its journal back; no two `cont`s free guests of the same image |
| SuspendSafety.ViolationBranchIsDead | internal/backend/qemu/suspend.go:857-925 | no run reaches a guest running under a saved journal, nor recovery's branch for it |
| SuspendSafety.RecoverActionIsTrue | internal/backend/qemu/suspend.go:857-1076 | whatever happened before, the action a recovery returns is true of the machine it leaves, except that a guest it resumed after a bad journal was set aside may have been frozen again by a save that was still being sent |
| SuspendSafety.NoHypervisorIsLost | internal/backend/qemu/qemu.go:321-359 | when no command runs, a live hypervisor is named by its pid file: no returning path of a start or a wake loses one |
| SuspendSafety.ReturnsTruly | internal/cli/stop.go:53-151 | whatever failed in it, a command that returns says what is so: halted or died with no hypervisor, asleep under a saved journal, awake or rolled back without a journal, transient with no guest let loose |
| SuspendSafety.HaltedIsOff | internal/cli/stop.go:88-107 | over every run, after a command that said halted, or that the hypervisor died, there is none until the next command |
| SuspendSafety.FailedLaunchLeavesNoPidFile | internal/backend/qemu/qemu.go:321-359 | a start or wake that gives up after its launch leaves no pid file of a hypervisor that is gone |
| SuspendSafety.BootsOverNothingSaved | internal/backend/qemu/qemu.go:253-262 | over every run a guest is booted cold only with no hypervisor, and neither a journal nor an image, left |
| SuspendSafety.ForgottenGuestsHadABadJournal | internal/backend/qemu/qemu.go:185-210 | a frozen guest with no journal can only come of a bad journal set aside |
| SuspendSafety.FailedWakeKeepsTheSavedState | internal/backend/qemu/suspend.go:683-740 | a wake that fails before it unlinked the journal leaves the saved state and everything durable as it was; one that calls it incompatible does so with the hypervisor gone |
| SuspendSafety.PastUnlink | internal/backend/qemu/suspend.go:640-674 | once the journal is unlinked a wake is neither transient nor incompatible |
| SuspendRefusal.WakeDiscardsExactly | internal/backend/qemu/suspend.go:683-837 | over every wake, whatever its calls and its hypervisor do, the saved state is given up exactly when the pair, the disk or the hardware was not the saved one, or the hypervisor exited, refused it or failed to load it, and a hypervisor that may be left could be ended; a load still under way is no reason |
| SuspendRefusal.TransientExactlyIfSaved | internal/backend/qemu/suspend.go:683-740 | a wake that returns reports a failure that can be retried exactly when the machine is still saved |
| SuspendWake.StartWakes | internal/backend/qemu/suspend.go:565-674 | a start of a machine asleep, on a pair no fingerprint speaks against: whatever the hypervisor does short of failing, and however many polls come before it has named itself and has loaded, the guest runs with the memory its image holds, continued once and from that image, and nothing of the suspend is left |
| SuspendWake.StopWakesFirst | internal/cli/stop.go:114-151 | a stop of it does the same, and then leaves no hypervisor, pid file or journal |
| SuspendSave.SuspendSaves | internal/cli/suspend.go:220-402 | a suspend of a running guest, however many polls come before its save completes, ends asleep: the image holds the guest as it was frozen, at full size, fingerprinted exactly if that could be taken, with no hypervisor left |
| SuspendSave.RoundTrip | internal/backend/qemu/suspend.go:330-674 | suspended and started again a guest goes on where it was: same memory but for what it wrote since, continued once, from its own image, matching its disk exactly if it did before |
| SuspendBoot.StartBoots | internal/backend/qemu/qemu.go:231-359 | a start of a machine that is off, with no journal or a pair whose disk was written since, boots a guest that has read its disk and nothing else, and leaves no saved state |
| SuspendBoot.StartReplacesHaltedGuest | internal/cli/start.go:132-146 | a start that finds the hypervisor of a guest that has halted ends it and boots |
| SuspendBoot.StartLeavesItUp | internal/cli/start.go:132-183 | a start of a machine that runs leaves its guest as it is |
| SuspendStop.StopHalts | internal/cli/stop.go:53-107 | a stop of any machine but a forgotten one, and unforced of any but one asleep, ends halted with no hypervisor, pid file or journal |
| SuspendCoherence.StepFresh | internal/backend/qemu/suspend.go:655-673 | every step but a reckless boot keeps each loadable saved pair, now or after a power loss, either of the present disk or given away by its fingerprint |
| SuspendSafety.ContinuedGuestsMatchTheirDisk | internal/backend/qemu/journal.go:186-255 | in a run with no reckless boot every continued guest matches its disk |
| SuspendReckless.StepIsSafeUnlessReckless | internal/backend/qemu/qemu.go:232-305 | from every coherent reachable state a step is safe for all runs that follow exactly when it is not a cold boot under an unprotected pair that could come back |
| SuspendReckless.RecklessCorrupts | internal/backend/qemu/suspend.go:565-674 | after such a boot some run continues a guest that does not match its disk |
| SuspendReckless.DiscardThenStartIsReckless | internal/cli/stop.go:119-151 | how it comes about: a discard whose sync fails, then a start |
| SuspendExamples.CorruptionIsReached | internal/cli/stop.go:119-151 | a whole run, from a machine that was never started to a continued guest that does not match its disk, with that start its only reckless boot |
| SuspendPairs.PairsBreakExactlyWhenHasty | internal/backend/qemu/suspend.go:461-485 | a step leaves some surviving saved journal without its image exactly when it removes an image while a surviving directory still has a saved journal |
| SuspendPairs.OnlySweepsAreHasty | internal/backend/qemu/journal.go:238-261 | commit, rollback, cancel, discard and wake never do; only a sweep for orphans can |
| SuspendExamples.DiscardThenStartIsHasty | internal/backend/qemu/qemu.go:232-305 | and one comes about: a discard whose sync fails, then a start |
| SuspendExamples.HastyIsReached | internal/backend/qemu/qemu.go:232-305 | the same from a machine that was never started |
| SuspendPairs.SyncedIsNeverHasty | internal/backend/qemu/journal.go:158-171 | from a synced directory no step does |
| SuspendPairs.SavedJournalsHaveTheirImage | internal/backend/qemu/suspend.go:413-439 | over every such run and for every subset of unsynced changes a power loss keeps, no saved journal has its image missing, short or of another save |
| SuspendRecovery.RecoverResolves | internal/backend/qemu/suspend.go:839-1076 | in every reachable state, and whatever the hypervisor does in between short of dying, one recovery whose calls succeed ends in a running guest that no save will freeze and no journal, a valid saved pair with no hypervisor, or a stopped machine, and its action names which: exactly unless there is no journal and the guest is past its save, or being saved, or frozen in a hypervisor that was never woken |
| SuspendTable.RecoveryTable | internal/backend/qemu/suspend.go:839-1076 | which end each machine comes to: a valid pair is kept, fingerprinted if its hypervisor was ended for it; a guest that runs, was loaded or was frozen under a saving or damaged journal runs again with its memory, continued once exactly if it was frozen; anything else is discarded, but for a machine that is off and has no journal, which is left alone |
| SuspendTable.RecoveryEndsExactly | internal/backend/qemu/suspend.go:857-1076 | so, from the starting machine alone: asleep exactly for a valid saved pair, running exactly for a live hypervisor whose guest was ever running or loaded and is not committed, discarded exactly for the rest |
| SuspendRecovery.StuckStays | internal/backend/qemu/suspend.go:857-925 | a recovery that meets a guest frozen so reports nothing to recover and leaves it frozen |
| SuspendExamples.DamageThenKillForgets | internal/backend/qemu/qemu.go:185-210 | how one comes about, frozen by a save that completed, is being sent or has not begun: the save is cut short, its journal damaged, and a start killed once it set the journal aside |
| SuspendExamples.ForgottenIsReached | internal/backend/qemu/qemu.go:185-210 | the whole run, from a machine that was never started |
| SuspendExamples.ResumedGuestFreezesAgain | internal/backend/qemu/suspend.go:1043-1076 | and how a recovery resumes a guest that the end of its save freezes again |
| SuspendRecovery.SecondRecoveryIsIdle | internal/backend/qemu/suspend.go:857-925 | a second recovery changes nothing that is on record and nothing its guest does, and says the same |
| SuspendUndo.SuspendBacksOut | internal/cli/suspend.go:434-537 | a suspend that gives up between writing its journal and its commit, whichever call failed and whatever the hypervisor does on the way, ends with the guest running, or with its hypervisor reported dead, and nothing of the suspend left: exactly when its journal was durable and the hypervisor was not dead past jm's last look |
| SuspendUndo.CalmSuspendBacksOut | internal/cli/suspend.go:314-402 | when the hypervisor does not die on the way: exactly unless the journal's write or its sync failed, or handing over the endpoints failed under a hypervisor already dead |
| SuspendExamples.UnsyncedJournalStays | internal/backend/qemu/suspend.go:180-191 | a run in which the journal's sync fails: it stays, under a running guest |
| SuspendExamples.DeadGuestIsRolledBack | internal/cli/suspend.go:438-478 | a run that ends rolled back with the hypervisor dead |
| SuspendWayBack.WayBack | internal/cli/suspend.go:438-537 | the machine's way back and then the socket's: no client of a suspend that backed out is left waiting, and each outcome leaves the socket with whom it says |
| ParkQueue.NextKeeps | internal/sleeper/standin.go:512-560 | every event keeps each connection in one place and within the cap, and never changes how one ended |
| ParkQueue.EveryConnectionEndsOnce | internal/sleeper/standin.go:531-621 | over every interleaving each accepted connection is on its way in, held, or ended in exactly one way for good, even when its timer races the hand-over |
| ParkQueue.AcceptedIsNeverDropped | internal/sleeper/standin.go:512-560 | a connection accepted while its endpoint is listened on is from then on among the arriving, the held and the ended |
| ParkQueue.ListenedIsAccepted | internal/sleeper/standin.go:512-529 | and listening on an endpoint accepts its clients |
| ParkQueue.FreezeGoesAheadExactlyWhenNobodyCame | internal/sleeper/standin.go:467-510 | from the arming on, whatever interleaves, the last check lets the freeze go ahead exactly when no connection was parked and no abort came, and disarms in the same step |
| ParkQueue.LateArrivalsWait | internal/cli/suspend.go:367-382 | a connection parked after the freeze stays held and cancels nothing until its timer runs or the queue is emptied |
| ParkQueue.HandOverLeavesNone | internal/sleeper/standin.go:580-602 | a hand-over that ends leaves no connection of its listeners parked, and sends each held one to the upstream of its kind |
| ParkQueue.Standin.DoPark | internal/sleeper/standin.go:531-560 | parking turns away at the cap, otherwise holds, and cancels an armed suspend |
| ParkQueue.Standin.DoTimer | internal/sleeper/standin.go:541-550 | the park timeout closes a connection only if it is still held |
| ParkQueue.Standin.DoCheckAndFreeze | internal/sleeper/standin.go:501-510 | the last abort check reports or disarms |
| SocketPath.ForeignRemovalIsAGuess | internal/netprov/gvproxy/forward.go:185-213 | in any state a step removes the other side's socket exactly when the forward just ended a helper whose inode is not on record |
| SocketPath.EachRemovesOnlyItsOwn | internal/netprov/gvproxy/gvproxy.go:289-315 | over every run in which no start is cut short between its pid file and its inode file, each side removes only sockets it bound |
| SocketPath.OneCutShortStartLosesTheSocket | internal/netprov/gvproxy/forward.go:109-155 | from any state in which the stand-in holds the path, one start cut short and one more start take the path from it |
| SocketPath.HeldExactlyUntil | internal/sleeper/standin.go:198-324 | a path the stand-in holds answers, and stops being its own exactly by a hand-back to a socket of the forward, its own letting go, or that guess |
| SocketPath.PathAlwaysAnswers | internal/sleeper/standin.go:186-246 | from the take until one of those, whatever interleaves, the path is never missing and never dead |
| SocketPath.TakeLeavesNoGap | internal/sleeper/standin.go:198-246 | a path that answered before a step of a take answers after it |
| SocketPath.TakeHolds | internal/sleeper/standin.go:198-246 | a take whose rename succeeds ends with the stand-in's own answering socket on the path, and the one it replaced aside exactly if that was asked and linked |
| SocketPath.TakeAndRestore | internal/sleeper/standin.go:248-270 | an answering socket of the forward, taken over and put back, is on the path again and answers |
| SocketPath.StartServes | internal/netprov/gvproxy/forward.go:109-155 | from every state a start whose calls succeed, and whose helper binds in time, ends with the forward's recorded socket on the path and answering, whoever had it; one that serves already is left as it is |
| SocketPath.ServesUntilItDies | internal/netprov/gvproxy/forward.go:109-117 | and so it stays exactly until that helper dies |
| SocketPath.StopClears | internal/netprov/gvproxy/forward.go:185-213 | a stop whose calls succeed leaves no helper and none of its files; from the path it takes the recorded socket, what is no socket, and an unrecorded one only after ending a helper, and nothing if told to keep it |
| SocketPath.LeftoverGoes | internal/netprov/gvproxy/gvproxy.go:298-315 | what a forward that is gone left on the path goes, anyone else's socket stays |
| SuspendRollback.Endpoint.StartForward | internal/netprov/gvproxy/forward.go:109-155 | a forward found serving is left alone; otherwise success means a recorded helper serves the path, and it succeeds if its calls do and the helper binds in time |
| SuspendRollback.Endpoint.GuestRunning | internal/cli/suspend.go:438-478 | the rollback ends with the real forward serving, unless a call of its start failed, and nothing held or parked, every client ended, whatever the queue sees meanwhile; a forward whose socket was put back is the one that serves |
| SuspendRollback.Endpoint.HypervisorDied | internal/cli/suspend.go:521-537 | nothing stays parked, and the path is left to whoever holds it |
| SleeperMode.HandsOverExactlyWhenServed | internal/cli/sleeper.go:547-605 | the mode loop hands over exactly when a running machine without a journal has its endpoints back, the engine socket being one of the forward's that answers |
| SleeperMode.TableExactly | internal/sleeper/standin.go:81-105 | all four answers, from the look: end at the second stop; hand over what is held and served; hold what is held otherwise, and the endpoints of a suspended or broken machine; watch the rest |
| SleeperMode.NobodyWaitsForever | internal/cli/sleeper.go:524-540 | with no wake in flight, a running machine without a journal does not keep its path with the stand-in |
| SleeperMode.EndsAtTheSecondStop | internal/sleeper/standin.go:87-102 | the sleeper ends exactly at the second stopped observation in a row with nothing in flight |
| Converge.Forwarder.ConvergeWith | internal/forwarder/converge.go:79-204 | whatever its calls do: the table, the record and the file it leaves, exactly what it asked to remove, and exactly which mappings were at some instant live and not on file |
| Converge.RecordedKeys | internal/forwarder/converge.go:101-171 | the record has no key twice and exactly the planned, the not yet removable and the newly desired ones |
| Converge.OthersAreLeftAlone | internal/forwarder/converge.go:62-69 | a mapping not on record is never removed |
| Converge.TableConverges | internal/forwarder/converge.go:79-204 | when the calls succeed the table is what it was, less the owned and unplanned, plus the desired |
| Converge.SecondCallIsIdle | internal/forwarder/converge.go:79-204 | an immediate second call with the same plan changes, asks and saves nothing |
| Converge.OffRecordExactlyWhenAheadOfFile | internal/forwarder/converge.go:172-185 | a call leaves a live mapping off file exactly when nothing makes it save and a desired mapping is owned in memory only |
| Converge.LostExactlyWhenEverAhead | internal/forwarder/converge.go:79-204 | over any calls, however they turn out, some mapping is live and off file at some instant exactly when one of them was so |
| Converge.NothingIsLostWhileSavesWork | internal/forwarder/converge.go:62-69 | starting in step with the file, that takes a call that had to save and could not |
| Converge.Forwarder.ConvergeAgainAndAgain | internal/forwarder/converge.go:62-69 | over any calls, however they turn out, exactly which mappings were at some crash point live, through this forwarder, and not on file |
| Converge.Retry | internal/forwarder/forwarder.go:236-262 | the retry after a lost save exposes a mapping that no file knows |
| Converge.RetryAfterAFailedSave | internal/forwarder/forwarder.go:236-262 | the same on the forwarder itself |
| Converge.Forwarder.Release | internal/forwarder/converge.go:220-253 | release removes what is on file and listed, as far as the provider lets it, and forgets the rest |
| DesiredState.MappingsAreThePorts | internal/forwarder/desired.go:180-214 | the mappings are strictly sorted and are exactly the published ports' |
| DesiredState.EachKeyInOnePlace | internal/forwarder/desired.go:180-228 | each key is exactly one of engine-reachable, once in one rule's list, or pending; no two rules share a guest port |
| DesiredState.RulesComeFromTheirContainer | internal/forwarder/desired.go:169-211 | each rule's keys come from publishes of that port by its container, and none sits on a port the engine redirects |
| DesiredState.MisdirectsExactly | internal/forwarder/desired.go:202-208 | a key is redirected to a container port it did not name exactly when its container published that guest port to two of its ports |
| DesiredState.OneContainerTwoPorts | internal/forwarder/desired.go:202-208 | an example of it |
| Publishing.LivePublishesAreMapped | internal/forwarder/desired.go:151-318 | from the containers alone: every published port of a running or paused container, each of its range up to 65535, is mapped from the address it names, from every address for a wildcard, else from the publish address, to the guest at that port, and nothing else is mapped |
| Publishing.MappingsExactly | internal/forwarder/desired.go:180-196 | with no space in a protocol or host address, the mappings are exactly those: two that differ in protocol, address or port never pass for one |
| Publishing.AddressReadsBack | internal/forwarder/desired.go:266-272 | every address whose host has no bracket, of either family, is written so that a dialler reads its host and port back |
| Publishing.RedirectsExactly | internal/forwarder/desired.go:173-214 | it needs a redirect exactly when it names a host address or a wildcard, and gets one, into its own container, exactly when the engine has that guest port for no container and the first publish that needs it is its container's; else it is pending |
| Publishing.UnsharedRedirectIsRight | internal/forwarder/desired.go:202-214 | a redirect no other port of the container shares goes to the container port its publish names |
| DesiredState.Compute | internal/forwarder/desired.go:151-228 | the loops, with their maps of seen keys, rules and engine owners, compute that plan |
| DesiredState.PlannedIsProper | internal/forwarder/desired.go:151-228 | the plan meets what the convergence relies on |
| DesiredState.ResolveMoves | internal/forwarder/desired.go:348-360 | resolving drops a rule exactly when its container has no address, and makes all its keys pending |
| DesiredState.ResolveKeepsPlaces | internal/forwarder/desired.go:348-360 | so each key keeps exactly one place, and keys only move from rules to pending |
| DesiredState.BlockMoves | internal/forwarder/desired.go:364-378 | blocking makes every key with a rule pending, for that reason, and no other |
| AnchorMemo.MemoStaysFaithful | internal/forwarder/forwarder.go:289-344 | with nobody else writing the anchor a loaded memo is what the guest holds, over any run |
| AnchorMemo.SkippedWriteIsNotStale | internal/forwarder/forwarder.go:319-322 | so after any resync that gets through the guest holds what is wanted, written or not |
| AnchorMemo.RestoredExactlyOnceTried | internal/forwarder/forwarder.go:258-344 | after a flush, resyncs of any kind, with any texts and failures, restore the anchor exactly when one gets a write through at or after the first that forced, or wanted another text, and got past its lookup |
| AnchorMemo.HeldExactlyOnceTried | internal/forwarder/forwarder.go:299-344 | a resync that gets to the end leaves the guest with what is wanted exactly when it or an earlier one came to a write, failed writes included |
| AnchorMemo.StaysRestored | internal/forwarder/forwarder.go:319-335 | once restored it stays so until a write fails |
| AnchorMemo.OneRoundRestores | internal/forwarder/forwarder.go:258-277 | from any state, ReloadEvery timer resyncs in a row leave the guest with what is wanted, if all get through |
| AnchorMemo.SuccessfulTicksAreNotEnough | internal/forwarder/forwarder.go:224-247 | any number of successful ones need not, when the lookup of each forced one fails |
| AnchorMemo.AnchorState.ApplyRules | internal/forwarder/forwarder.go:299-344 | writes through, skips, or forgets the memo on a failed write |
| AnchorMemo.ForceIsNeverLost | internal/forwarder/debounce.go:25-60 | over any interleaving a forced trigger is answered, or its flag is set and a signal is on its way |
| AnchorMemo.ForceArrives | internal/forwarder/debounce.go:37-60 | and it can always be delivered |
| Shares.NormaliseShares | internal/machine/share.go:202-235 | refuses exactly a bad path or too many kept shares; otherwise the set is well shaped, and keeps the mode of every path exactly when no nested chain of requests changes mode twice |
| Shares.NormalisedShape | internal/machine/share.go:190-235 | strictly sorted, parents first, none redundant; tags distinct, not the configuration share's, at most 31 bytes |
| Shares.EveryRequestIsCovered | internal/machine/share.go:202-230 | each requested path is kept or lies under a kept share of its mode |
| Shares.NormaliseKeepsModesExactly | internal/machine/share.go:219-230 | the mode of every path is kept exactly when no nested chain of requests changes mode twice |
| Shares.WritableUnderReadOnlyUnderWritable | internal/machine/share.go:195-200 | an example of a lost mode |
| Shares.NormaliseIsIdempotent | internal/machine/share.go:202-235 | normalising a normalised set is never refused and gives exactly it back, tags included |
| Shares.FreeTag | internal/machine/share.go:245-264 | the renaming loop ends with the first free name |
| Shares.TagReadsAsItsName | internal/machine/share.go:164-190 | a tag carries the directory's own name when that is short and plain |
| Shares.RenamedFits | internal/machine/share.go:245-264 | a renamed tag fits, keeps as much of the tag as fits, and ends in its number |
| Shares.AddedShareDecides | internal/machine/share.go:267-275 | an added share decides the mode of its path |
| Shares.RemoveShare | internal/machine/share.go:280-298 | removes exactly the share of that path and says whether it was there |
| OptionStrings.SplitOpts | internal/backend/qemu/argvpin.go:195-212 | the scan computes the split |
| OptionStrings.JoinOfSplit | internal/backend/qemu/argvpin.go:195-212 | joining the split of any string gives it back |
| OptionStrings.SplitUndoesJoinExactly | internal/backend/qemu/argvpin.go:195-212 | splitting a join gives the elements back exactly when each has its commas doubled, none after the first starts with one and none in the middle is empty |
| OptionStrings.AnEmptyMiddleIsLost | internal/backend/qemu/argvpin.go:195-212 | an example that does not come back |
| OptionStrings.GetAfterSet | internal/backend/qemu/argvpin.go:214-234 | what was set is read back exactly, whatever commas it has |
| OptionStrings.OthersAfterSet | internal/backend/qemu/argvpin.go:224-234 | every other key reads as before |
| OptionStrings.SetSurvivesResplitExactly | internal/backend/qemu/argvpin.go:224-234 | a set option survives joining and splitting again, exactly unless it was added after a trailing comma |
| OptionStrings.OptSetLoop | internal/backend/qemu/argvpin.go:225-234 | the loop replaces the first match or appends |
| SavedArgv.IncomingTwiceExactly | internal/backend/qemu/argvpin.go:99-123 | making a command line incoming twice is making it so once, exactly when the type is one element and pinning forges no flag of jm's |
| SavedArgv.IncomingArgvIs | internal/backend/qemu/argvpin.go:99-123 | the command line ends in one deferred migration, its first machine flag reads back as the pinned type with its other options as saved, and every other argument is the saved one; refused exactly for a daemonized line, another migration or no machine flag |
| SavedArgv.StripsExactly | internal/backend/qemu/argvpin.go:107-116 | a deferred migration goes from wherever it stands, any other refuses the line, and a line with neither stays |
| SavedArgv.PlainTypesResumeUnchanged | internal/backend/qemu/argvpin.go:49-123 | a machine type without a comma or leading dash is such a type |
| SavedArgv.StripIncoming | internal/backend/qemu/argvpin.go:107-116 | the loop strips every deferred migration and refuses any other |
| SavedArgv.ResolveSavedArgv | internal/backend/qemu/argvpin.go:131-193 | each argument is kept or refitted on its own, or the whole is refused |
| SavedArgv.SharesFitExactly | internal/backend/qemu/argvpin.go:149-176 | a share is kept exactly while its path is there or it has none, and replaced, under its device's tag or else its own id, exactly if that is a plain name whose placeholder can be made |
| SavedArgv.TagIsTheLastDevices | internal/backend/qemu/argvpin.go:133-147 | a share's tag is that of the last device line that names both |
| SavedArgv.FirmwareFitsExactly | internal/backend/qemu/argvpin.go:177-190 | only a read-only flash image that has gone is looked for where the firmware is now, under its own name and else under the standard one; every other key reads as saved |
| SavedArgv.DeviceLinesAreUntouched | internal/backend/qemu/argvpin.go:125-130 | no device line changes |
| SavedArgv.VanishedShareIsReplaced | internal/backend/qemu/argvpin.go:150-176 | a vanished share reads back as its placeholder, read-only, with every other key as saved |
| SavedArgv.FsdevReadsBack | internal/backend/qemu/argv.go:195-201 | a share's line is of the local driver and reads back as its id, exact host path, security model and remapped devices, and as read-only exactly for a read-only share |
| SavedArgv.DeviceReadsBack | internal/backend/qemu/argv.go:202-206 | its device is the pinned 9p one and reads back as fsdev, tag and the number of its slot |
| SavedArgv.ShareArgs | internal/backend/qemu/argv.go:190-214 | one pair of lines per share, at consecutive slots from 8 |
| SavedArgv.SlotsAreDistinct | internal/backend/qemu/argv.go:142-155 | all pinned slots differ |
| SparseWriter.CopySparse | internal/image/sparse.go:35-83 | however a stream is split into writes, the closed file is the stream and the size its length |
| SparseWriter.Writer.Write | internal/image/sparse.go:35-67 | a write extends the stream, or fails leaving a prefix of it |
| SparseWriter.Writer.PunchHole | internal/image/punch_darwin.go:26-34 | exactly the whole blocks of a run of zeros are given back, unless the file system refuses, and the file reads the same |
| SparseWriter.PunchedRangeIsTheWholeBlocks | internal/image/punch_darwin.go:26-34 | the range given back is exactly the whole blocks of the hole |
| IdleTracker.DueMeansWatchedIdle | internal/idle/idle.go:49-138 | a due machine was watched idle: no blocking sample since some event, and at least after × penalty / (2 × interval) quiet samples spanning after × penalty, whatever the clock did |
| IdleTracker.QuietMeansDue | internal/idle/idle.go:49-138 | and a machine left alone becomes due: quiet samples on time, with nothing between that shows it in use, that span after × penalty |
| IdleTracker.RunsMeanSeenBefore | internal/idle/idle.go:80-100 | an engine client or session blocks only when the readable sample before showed one too |
| IdleTracker.PenaltyIsAPowerOfTwo | internal/idle/idle.go:118-161 | the penalty is 1, 2, 4 or 8 |
| IdleTracker.QuickWakesDouble | internal/idle/idle.go:151-161 | each wake within the flap window doubles the idle period, up to eight times |
| IdleTracker.OneLongSleepResets | internal/idle/idle.go:151-161 | after any of them a long sleep puts the period back, and one in between changes nothing |
| IdleTracker.BlockedIsNotDue | internal/idle/idle.go:58-108 | nothing is due right after a blocking sample |
| IdleTracker.Tracker.ObserveSample | internal/idle/idle.go:58-108 | the tracker's fields follow its history |

## Left out

- The commands of the suspend protocol are functions of one effect each, not
  methods on an object: a kill or a power loss falls between any two effects, and
  a method would hide those instants.
- QMP, SSH, process launching, signals and process matching appear as outcomes a
  step is given, with the distinctions the code makes between them.
- A hypervisor launched by a jm that is killed at once writes its own pid file
  before the next command looks; pid file writes succeed.
- A fingerprint of the disk is modelled as the number of writes the disk has seen.
- The journal is damaged from outside only between commands.
- SuspendSafety.RecoverActionIsTrue: does not say that a resumed guest runs when its
  save was still being sent, because recovery continues the guest without cancelling
  that save (`SuspendExamples.ResumedGuestFreezesAgain`).
- SuspendRecovery.RecoverResolves: the hypervisor does not die during the recovery;
  what each step then keeps is in `SuspendInvariant`.
- SuspendRollback.Endpoint.GuestRunning: the forward's helper does not die while the
  rollback starts it and hands over; `SocketPath` has that death at any step.
- Inodes are never reused.
- The SSH port, unlike the engine socket, is modelled only as what one evaluation
  of the mode table sees of it.
- SparseWriter.Writer.PunchHole: that a file system keeps the bytes around the
  range it deallocates is part of the model, not proved.
- SavedArgv.ResolveSavedArgv: the placeholder and firmware paths are plain
  concatenations; path cleaning is not modelled.
- SavedArgv.PlainTypesResumeUnchanged: which types QEMU resolves an alias to is
  not modelled.
- Shares.NormaliseShares: resolving a path and hashing it are parameters, the
  resolution idempotent and the hash eight characters.
- DesiredState.Compute: the JSON of the container listing, its port widths and the
  trimming of the publish address are not modelled.
- Converge.Forwarder.ConvergeWith: timestamps are not modelled, a mapping's key has
  its protocol already made canonical (an empty one reads as tcp), the plan's keys
  come in their sorted order, and the table changes only by the forwarder's own
  calls while one convergence runs.
- AnchorMemo.ForceIsNeverLost: a forced resync that then fails to list the
  containers loses the force; that is the resync, not the debouncer.
- IdleTracker.DueMeansWatchedIdle: the product of period and penalty does not wrap
  at 64 bits.
- The text of the redirect rules, the container inspection, the idle monitor's
  probing, and the order in which the sleeper logs are not modelled.
- The DNS resolver, image download, checksums, decompression, the seed image,
  commands, flags, listings and progress output would add only easy members.
- Guest shell programs (quiesce, remount, post-resume) are opaque steps.
