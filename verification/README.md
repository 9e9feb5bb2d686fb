# Encrypted-messaging client and media relay: a verified model

This project models the parts of the system whose bugs lose messages, keys or
audio, and proves what they promise.

The client keeps every MLS group of a device in one opaque device state. That
state is changed only under a state lock, handed to a single writer, and kept in
an encrypted file that must survive crashes. Group changes are commits; a
delivery service appends a commit to a group's log only if it targets the next
epoch, and its replies may be lost. `Groups`, `Protocol`, `Ratchet`,
`SubmittedBase`, `FailingRuns`, `Heal`, `SessionState`, `StateStore`, `Ownership`
and `Migration` model this; `ProtocolEvents`, `SessionEvents` and `OwnershipEvents`
state what each single step does, apart from the functions that compute it.
`Protocol` is the whole as one step system: any number of devices, each with its
files, its session and its lock, against the server, with crashes, reloads, save
calls that outlive their webview, files that cannot be read, hand-offs to the
background task and its decrypts, and lost, late and repeated messages as events.
A group copy is the history of the commits merged into it, so its epoch is the
length of that history.

`GroupKeys`, `GroupStorage`, `Framing` and `Membership` model the parts of the
cryptographic crate around the MLS library: how storage entries name their
group, deleting a group, the framed key-package list, and which leaves a remove
commit takes out.

`ChannelTree`, `DuckLock` and `VideoRelay` model the media relay's state
machines. `AudioFrame` (with `Bits`) and `KeyGrace` model the audio wire format
and the receive-key slot; `EventSchema` (with `Text`) models the event contract
checker and its sample generator.

Code that changes variables is modelled by classes and loops
(`StateStore.Store`, `SessionState.Session`, `Ownership.Owned`,
`Migration.AppData`, `DuckLock.Relay`, `KeyGrace.KeySlot`), each method proved
equal to a function of the old state. Those functions are the steps of the runs
the theorems quantify over.

`dafny verify dfyconfig.toml` checks everything.

## What the proofs found

- A ciphertext position can be used twice, in two ways. A load that cannot read the
  main file goes on from the backup, the state before the last acknowledged save:
  `UnreadMainReusesPosition` is a run in which a briefly locked main file takes the
  sender ratchet back by one. And a save call that runs on after its webview was
  reloaded is accepted whenever it lands, an older state over a newer one:
  `LateSaveReusesPosition`. Every position in both runs was reported durable before
  it was returned. The guards are exact: a start is harmless if and only if it reads
  main or an opening tmp, or the backup it falls back to is not behind
  (`StartNeverFallsBehind`, `BackgroundHarmlessIff` for the background task), and a
  late save if and only if the files have been handed over or its state is not behind
  the newest confirmed one (`LateSaveHarmlessIff`). No position is used twice in any
  run that keeps these guards (`NoPositionUsedTwice`), hence in any run whose reloads
  wait for the save in flight and whose loads read the newest file
  (`NoReuseInCarefulRuns`).
- The store's own promise has the same limit. After an acknowledged save a load gives
  that state or a later one if it reads main or an opening tmp; otherwise it gives
  exactly the backup, or an error (`CrashSafe`). `UnreadMainLoadsBackup` loads the
  state before an acknowledged one; with two acknowledged saves nothing older than the
  first is ever loaded (`OneSaveBackAtMost`).
- A state recovered only from the temporary file is treated as durable by the
  session (`durableVersion = stateVersion` after a load), but the next save
  truncates that file first. `LoadedSurvivesNextWriteIff` gives the exact
  condition under which a loaded state outlives the next save, and
  `LoadedStateCanBeLost` a run in which it does not. Invariant I5's "base is
  durable before the server sees a commit derived from it" holds exactly if
  something was committed and saved since the load, or a load of all the files would
  have found the same state, with the temporary file and without it
  (`SubmittedBaseSurvivesIff`); `SubmittedBaseCanBeLost` is a run in which the server
  holds a commit whose base the device has lost.
- A committed state of the signed-in account can be lost to another account's save. A
  save refused for naming the earlier account resets the session whichever account is
  bound by then: `StaleRefusalLosesCommit` drops a state that was committed and
  awaited. It happens if and only if the bound account has a committed state that is
  not persisted (`StaleRefusalLosesIff`). In general a reset loses the newest committed
  state exactly if it is not persisted and the last save sent was of an earlier version
  (`CommittedLostIff`); no later save ever carries it (`DroppedForGood`).
- A creation of a fresh identity that fails drops the cached state of whichever
  account is bound by then. `StaleCreationUnbindsAccount` switches accounts twice
  behind a suspended commit and leaves the third account without its state;
  every operation of it is refused until the next reset (`RefusedUntilReset`).
  `StaleCreationTouchesIff` says exactly when, and that what is dropped is only
  the state as loaded: nothing was committed to it and nobody waits.
- A deferred state can be lost, within one account too, for one of three reasons: an
  accepted save not made from it, a background decrypt whose flush did not finish or
  that could not read the newest file, or the death of the process before a flush
  (`DeferredSurvivesIff` has the exact cuts). Four concrete runs lose one. In runs that
  complete the flush at every load, hand-off and background decrypt, read the newest
  file there, and end their processes with nothing deferred, no state that was ever
  deferred is lost, however long they go on (`NothingDeferredIsLost`).
- Migration can get stuck, never lose: whatever is interrupted or unreadable, each
  legacy file stays in exactly one place, unchanged (`MigrationLosesNothing`).
  `ResumableIffMovable` shows that an interrupted move can always be resumed if and
  only if whatever is left to move opens by itself. A damaged main file with a good
  backup loads, but a run cut after the backup was moved leaves a main file that no
  later run can read. A temporary file left over in the account's own directory shadows
  the migrated state (`MigratedLoadsTheSameIff`).
- Healing that reports nothing to do may leave a copy behind, and the guard is an
  unanswered catch-up: after a lost race (`NothingToDoIsHealthyIff`) or at the start of
  a heal (`HealGroupHealthyIff`). Without force, a fork of the server's own length stays
  in place (`RepairsUnlessSameEpochFork`). An accepted commit that nobody could confirm
  strands the copy before it; the next undisturbed heal repairs that
  (`StrandedCommitIsRepaired`). A join or resync that reports success is one commit
  behind exactly if its stale-leaf commit was accepted, its reply lost and the log out
  of reach (`SelfHealConverges`); the same heal repairs it (`StrandedCleanupIsRepaired`).
- On six bytes of an audio frame with a negative length the decoder never ends
  (`ReaderCanLoop`). Without negative lengths it always does (`ReaderEnds`); when one
  takes it before the buffer, it ends if and only if it lands an odd number of bytes
  before the start and ends when it goes on after the first varint
  (`EndsFromBeforeStartIff`).
- The sample generator answers a bare `null` field with a string
  (`NullHasNoSample`); `SampleConforms` says exactly which specs it can satisfy.

## Model

The theorems come first; from `ProtocolEvents.EncryptEffect` on, the rows say what
single operations do.

| member | source | states |
|---|---|---|
| Protocol.Agreement | web-portal/src/mlsSession.js:586-646 | Over any run of any devices and the server, every copy a device holds, in memory or in any file, is the server's log up to that copy's epoch; two devices at one epoch hold the same group. |
| Protocol.AlwaysAgrees | web-portal/src/mlsSession.js:725-778 | Every reachable state keeps all copies, parked states, saves in flight and published group states on the server's log. |
| Protocol.StepKeepsAgreement | web-portal/src/mlsSession.js:1417-1470 | Any single event of any device or of the server keeps that invariant, for all devices. |
| Protocol.AdoptionIsLogged | web-portal/src/mlsSession.js:608-641 | A commit is adopted, on a clean reply or by checking the log, only if the log holds exactly that epoch and those bytes. |
| Protocol.CatchUpStaysOnLog | web-portal/src/mlsSession.js:725-778 | Joining from a welcome and replaying a truthful reply, however partial or reordered, keeps every copy on the log. |
| Protocol.AcceptKeepsServer | web-portal/src/mlsSession.js:608-641 | An accepted request extends the log to exactly the history its author planned. |
| Ratchet.NoPositionUsedTwice | web-portal/src/mlsSession.js:1251-1264 | Over any run with crashes, reloads, hand-offs, background decrypts, late saves and unreadable files, in which no late save lands a state behind what was confirmed durable and no load goes on from a backup behind it, no two ciphertexts returned by one device share group, epoch and generation. |
| Ratchet.StartNeverFallsBehind | web-portal/src-tauri/src/mls_store.rs:278-320 | After such a run a start loads nothing behind a state an operation was told is durable if and only if it reads main or an opening tmp, or the backup it falls back to is not behind; in the first case it succeeds. |
| Ratchet.AlwaysRatchetOk | web-portal/src/mlsSession.js:314-385 | In such runs, in every reachable state: a version reported durable is on disk, nothing the session has parked or in flight is behind it, and all returned positions are spent. |
| Ratchet.LateSaveHarmlessIff | web-portal/src-tauri/src/mls_store.rs:710-745 | A save that outlived its webview leaves every later load at or above the newest confirmed state, however it and the flush after it are cut, if and only if the files have been handed over, or its state is not behind that one. |
| Ratchet.BackgroundHarmlessIff | web-portal/src-tauri/src/background_sync.rs:161-196 | A background decrypt leaves every later load at or above what was confirmed durable, however its save is cut, if and only if its own load read main or an opening tmp, or the backup it fell back to is not behind. |
| Ratchet.NoReuseInCarefulRuns | web-portal/src/mlsSession.js:325-385 | In any run whose reloads and hand-offs happen with no save call in flight and whose loads read main or an opening tmp, no ciphertext position is returned twice. |
| FailingRuns.LateSaveReusesPosition | web-portal/src-tauri/src/mls_store.rs:710-745 | A concrete run with a reload during a save: a position is returned twice, each time after its state was reported durable. |
| FailingRuns.UnreadMainReusesPosition | web-portal/src-tauri/src/mls_store.rs:292-314 | A concrete run with a start that cannot read the main file: a position is returned twice, each time after its state was reported durable. |
| SubmittedBase.SubmittedBaseSurvivesIff | web-portal/src/mlsSession.js:614-618 | Wherever an own commit may be submitted, the state it was built on survives the next save if and only if something was committed and saved since the load, or a load that reads every file would have found it, with tmp and without. |
| FailingRuns.SubmittedBaseCanBeLost | web-portal/src/mlsSession.js:540-541 | A concrete run after which the server holds own commits whose base the device has lost. |
| Ratchet.WorkMovesForward | web-portal/src/mlsSession.js:1251-1264 | All lock work leaves every group at a later epoch or at the same one with its ratchet no further back. |
| Ratchet.SessionKeepsDurability | web-portal/src/mlsSession.js:608-641 | Lock work, submission and adoption keep the durability bookkeeping, own commits adopted after a suspension included. |
| Groups.ApplyLog | web-portal/src/mlsSession.js:752-778 | The catch-up loop is one pass over the log in label order, whatever its labels; where each label is the epoch its commit produces, that leaves exactly the fold over epoch+1, epoch+2, … up to the first missing or unappliable commit, whatever the order, repeats and gaps; a change is reported exactly when there was one. |
| Groups.ReplayIsFinal | web-portal/src/mlsSession.js:752-778 | Catching up again on the same log changes nothing, and no logged commit applies any more. |
| Groups.ReplayIgnoresOrder | web-portal/src/mlsSession.js:755-757 | The result depends only on which commits each epoch is labelled with, not on their order across epochs. |
| Groups.SortIsStable | web-portal/src/mlsSession.js:755-757 | Sorting the log orders it by epoch, keeps every entry, and keeps the order within an epoch. |
| Groups.ReplayStaysOnLog | web-portal/src/mlsSession.js:752-778 | Replaying entries that quote a log extends a copy on that log and keeps it there. |
| Heal.ExternalJoinOrResync | web-portal/src/mlsSession.js:830-882 | The three-attempt loop, each attempt with its stale-leaf commit after a join, computes the outcome of the attempts taken one after another. |
| Heal.SelfHealConverges | web-portal/src/mlsSession.js:830-882 | With a server that answers and at least one unraced attempt the call ends joined, resynced or with nothing to do. With nothing to do the copy is at the epoch the server last showed. After a join or resync it is the server's log as that last accepted a commit of this device if and only if the stale-leaf commit that may follow settled; otherwise it is exactly that one commit behind. Otherwise every attempt lost its race. |
| Heal.AdoptedIffUnracedAndKnown | web-portal/src/mlsSession.js:586-627 | An own commit is adopted exactly when nobody raced it and its fate became known, by a clean reply or from the log. |
| Heal.RepairsUnlessSameEpochFork | web-portal/src/mlsSession.js:851-860 | An undisturbed attempt ends on the server's log if and only if it is forced, or the copy was on the log, missing, or at another epoch. |
| Heal.NothingToDoIsHealthyIff | web-portal/src/mlsSession.js:851-883 | Whenever a call, however disturbed, ends with nothing to do, the copy is at the server's epoch if and only if the deciding attempt was not a lost race with an unanswered catch-up, or the copy already had the epoch the race ended at. |
| Heal.HealGroupHealthyIff | web-portal/src/mlsSession.js:1107-1118 | The same for a whole heal: its first catch-up's verdict is right if and only if it was answered, or the copy happened to have the server's epoch. |
| Heal.UnansweredCatchUpEndsHealing | web-portal/src/mlsSession.js:725-734 | After a lost race, an unanswered catch-up ends healing with a copy that is behind. |
| Heal.StrandedCommitIsRepaired | web-portal/src/mlsSession.js:586-600 | An accepted commit whose reply is lost and whose log cannot be fetched leaves the copy before it; the next heal with an undisturbed first attempt resyncs to exactly the server's log. |
| Heal.StrandedCleanupIsRepaired | web-portal/src/mlsSession.js:868-907 | A join or resync whose stale-leaf commit was accepted with its reply lost and the log out of reach reports success one commit behind; the next heal with an undisturbed first attempt resyncs to exactly the server's log. |
| Heal.HealGroupConverges | web-portal/src/mlsSession.js:1107-1118 | A listed device's copy is at the server's epoch after an answered catch-up and heal, given one unraced attempt, unless the deciding attempt joined or resynced and its stale-leaf commit did not settle. |
| Heal.CatchUpReachesEnd | web-portal/src/mlsSession.js:752-795 | A copy on the log catches up to the log's end, or stops only before a commit of this device's own. |
| SessionState.NoLostUpdate | web-portal/src/mlsSession.js:285-309 | Over any run, the committed states of the bound account form one chain, each made from exactly the state before it, whatever was suspended in between; what was committed stays in it as long as nothing resets the session and no own creation fails. |
| SessionState.OnlyCurrentAccountCommits | web-portal/src/mlsSession.js:608-641 | The re-check before adoption never fires for the current account; work suspended or queued before an account switch never commits. |
| SessionState.ResetOutdatesAll | web-portal/src/mlsSession.js:445-463 | A reset outdates the lock holder and everything queued. |
| SessionState.SavesNeverGoBack | web-portal/src/mlsSession.js:325-367 | Versions sent to disk never decrease. |
| SessionState.ResolvedMeansOnDisk | web-portal/src/mlsSession.js:335-342 | A waiter resolves only when a durable save at least as new as its version has succeeded; the others stay waiting and none is dropped. |
| SessionState.WaitNeverLies | web-portal/src/mlsSession.js:371-378 | waitDurable returns at once only for a version on disk; otherwise it waits on a running writer. |
| SessionState.IdleMeansDone | web-portal/src/mlsSession.js:343-367 | A failed save leaves nobody waiting; a writer that idles after a success leaves nothing unsaved and no waiter stranded. |
| SessionState.AlwaysOk | web-portal/src/mlsSession.js:273-385 | Every reachable state of lock, writer and identity keeps the lock and writer invariants, with at most one save in flight; while work called under an earlier account holds the lock or is next, nothing is committed for the current one. |
| SessionState.CacheDroppedIff | web-portal/src/mlsSession.js:353-358 | A bound account loses its state in memory exactly by a reset, asked for or run for any account's refused save, or by a creation that fails: its own or an earlier account's. |
| SessionState.CommittedLostIff | web-portal/src/mlsSession.js:445-463 | A step takes away the bound account's newest committed state before any save was given it if and only if it is a reset, or an own creation failing, while that state is not persisted and the last save sent was of an earlier version. |
| SessionState.DroppedForGood | web-portal/src/mlsSession.js:325-342 | A version dropped before any save was given it is never sent, however the run goes on. |
| SessionState.StaleRefusalLosesIff | web-portal/src/mlsSession.js:343-359 | A refused save from before the account was bound loses that account's committed state if and only if it has one that is not persisted. |
| SessionState.StaleRefusalLosesCommit | web-portal/src/mlsSession.js:353-358 | A concrete run in which the refusal of an earlier account's save drops a state the bound account has committed and waits for. |
| SessionState.StaleCreationTouchesIff | web-portal/src/mlsSession.js:561-566 | An earlier account's failing creation touches the cache exactly if the current account is bound by then; what it drops is as loaded and on disk, nothing was committed to it, and nobody waits. |
| SessionState.StaleCreationUnbindsAccount | web-portal/src/mlsSession.js:561-566 | A concrete run with two account switches behind a suspended commit: the third account is left without its state. |
| SessionState.RefusedUntilReset | web-portal/src/mlsSession.js:474-486 | From then on the account stays without a state until the session is reset or the window reloaded. |
| SessionState.Session.SaveSucceeded | web-portal/src/mlsSession.js:325-342 | The class holds the module's variables and runs the code between awaits; here: the whole new state after a successful save, and exactly the covered waiters resolved. |
| StateStore.CrashSafe | web-portal/src-tauri/src/mls_store.rs:278-320 | Over any run of saves cut by crashes and errors, loads and restarts: once a save returned Ok, a load that reads main or an opening tmp gives a state attempted at that save or later; one that reads neither gives exactly the backup, or Unreadable; a failing stat and a keyring out of reach give their errors; it is never Fresh. |
| StateStore.OneSaveBackAtMost | web-portal/src-tauri/src/mls_store.rs:278-320 | With two acknowledged saves, whatever a load can read, any state it finds was attempted at the first of them or later. |
| StateStore.UnreadMainLoadsBackup | web-portal/src-tauri/src/mls_store.rs:292-314 | A concrete run in which a load that cannot read main gives the state before an acknowledged one. |
| StateStore.AcknowledgedStaysProtected | web-portal/src-tauri/src/mls_store.rs:230-253 | From then on main, and tmp if it opens, hold states at least that new under the one key. |
| StateStore.RunsUseOneKey | web-portal/src-tauri/src/mls_store.rs:131-154 | Over any run all sealed files use one key, which is in the keyring before anything is on disk and never changes. |
| StateStore.LoadedSurvivesNextWriteIff | web-portal/src-tauri/src/mls_store.rs:230-253 | A loaded state survives the next save, cut anywhere, if and only if a load without tmp would also find it. |
| StateStore.LoadedStateCanBeLost | web-portal/src-tauri/src/mls_store.rs:236-239 | A concrete run in which a state recovered from tmp is gone after the next crash. |
| StateStore.ResolveKey | web-portal/src-tauri/src/mls_store.rs:131-154 | Fails closed: the keyring entry changes only from absent and only when nothing is committed, and a key is returned only if the keyring retained it. |
| StateStore.Store.WriteAtomic | web-portal/src-tauri/src/mls_store.rs:230-253 | The class holds one account's files, the keyring entry and the key cache; here: the three files after a write stopped anywhere, Ok exactly if it ran to the end. |
| Ownership.WritersTakeTurns | web-portal/src-tauri/src/mls_store.rs:710-768 | The background task changes files only between a hand-off and the next load, shown engine window or restart; a webview save is accepted exactly between a load of the account its bytes name and the next load, hand-off or restart. |
| Ownership.FlagsTellOwner | web-portal/src-tauri/src/background_sync.rs:161-191 | Over any run, the foreground flag and the owner variable say exactly which of the two owns the files. |
| Ownership.FilesNameTheirAccount | web-portal/src-tauri/src/mls_store.rs:710-745 | Over any run, the bytes in an account's directory, in each of its three files, and those waiting to be flushed there, name that account. |
| Ownership.FilesNeverGoBack | web-portal/src-tauri/src/mls_store.rs:604-616 | Over any run with writes cut anywhere and the process dying and starting again, no event puts bytes handed over earlier on top of later ones in an account's main file; and once a write was acknowledged, a later load finds nothing older if and only if it reads main or an opening tmp, or the backup it falls back to is not older. |
| Ownership.FlushReplacesNothingNewer | web-portal/src-tauri/src/mls_store.rs:604-616 | A deferred state is never older than any of its account's three files. |
| Ownership.DeferredSurvivesIff | web-portal/src-tauri/src/mls_store.rs:593-668 | In any one event a deferred state survives, as a load or a deferred state made from it, unless an accepted save not made from it takes its place, or the background task goes on from an older file after a flush that did not finish or that it cannot read, or the process dies before a flush; if and only if. |
| Ownership.NothingDeferredIsLost | web-portal/src-tauri/src/mls_store.rs:604-640 | In runs that complete the flush at every load, hand-off and background decrypt, read the newest file there, save what was made from the window's state and end processes with nothing deferred, whatever was deferred at any point is found at every later one, other writes failing or not. |
| Ownership.FailedFlushCanLoseDeferred | web-portal/src-tauri/src/mls_store.rs:724-735 | A concrete run in which a failed flush and a change of account lose a deferred state. |
| Ownership.FailedHandOffCanLoseDeferred | web-portal/src-tauri/src/mls_store.rs:634-668 | The same within one account, lost to the background task after a failed hand-off flush. |
| Ownership.UnreadMainCanLoseDeferred | web-portal/src-tauri/src/mls_store.rs:642-668 | The same after a flush that succeeded, lost to a background task that could not read the file it went to. |
| Ownership.FailedReloadCanLoseDeferred | web-portal/src-tauri/src/mls_store.rs:619-623 | And lost to the account's own window when it loads past a failed flush. |
| Ownership.Owned.SaveState | web-portal/src-tauri/src/mls_store.rs:696-751 | The class holds the process-wide statics and every account's files; here: which saves are accepted, and the whole new state of an accepted one. |
| Migration.MigrationLosesNothing | web-portal/src-tauri/src/mls_store.rs:424-489 | Whatever runs are interrupted wherever and whatever they can read, resumable or not, each legacy file is in exactly one place, unchanged, moved only to the one user the marker names, and other accounts are untouched. |
| Migration.MigrationServesReader | web-portal/src-tauri/src/mls_store.rs:435-470 | If every run takes what it can read for the same user's, the files go to that user or nowhere. |
| Migration.MigrationCompletes | web-portal/src-tauri/src/mls_store.rs:472-489 | After any interruptions and read errors one complete run over movable files leaves no legacy file and the owner's directory holding exactly the legacy files. |
| Migration.MigratedLoadsTheSameIff | web-portal/src-tauri/src/mls_store.rs:424-506 | Once no legacy file is left, the owner's account loads exactly what the legacy files loaded to, errors included, if and only if its directory had no sealed tmp of its own or the legacy one replaced it. |
| Migration.ResumableIffMovable | web-portal/src-tauri/src/mls_store.rs:435-489 | For legacy files owned by a user with nothing committed, every interruption can be resumed if and only if what is left to move opens by itself. |
| Migration.AppData.MigrateLegacy | web-portal/src-tauri/src/mls_store.rs:424-506 | The files and the marker after one run cut anywhere. |
| GroupKeys.KeyNamesItsGroup | web-portal/mls-crypto/src/lib.rs:293-295 | A group-scoped storage key contains an id's encoding if and only if it is that group's key or its tail spells the encoding out again. |
| GroupKeys.BodyIsPrefixFree | web-portal/mls-crypto/src/lib.rs:298-317 | No id's text begins a text that starts with another id's. |
| GroupStorage.DecodeInvertsEncode | web-portal/mls-crypto/src/lib.rs:319-339 | Decoding gives an id if and only if the text is exactly that id's encoding, for every byte string. |
| GroupStorage.DeletesExactly | web-portal/mls-crypto/src/lib.rs:364-391 | Deleting a held group removes exactly the entries that mention it, keeping all others with their values; without the group nothing changes. |
| GroupStorage.ListsExactlyTheGroups | web-portal/mls-crypto/src/lib.rs:397-415 | A group is listed if and only if the storage holds a state entry for it. |
| GroupStorage.DeleteUnlists | web-portal/mls-crypto/src/lib.rs:364-415 | Deleting a group takes it off the list and leaves every other group on it. |
| Framing.DecodesExactlyFramings | web-portal/mls-crypto/src/lib.rs:61-86 | A buffer decodes to a list if and only if it is that list's framing with lengths below 2^32; every other buffer is an error. |
| Framing.FrameBytesList | web-portal/mls-crypto/src/lib.rs:61-68 | The loop builds the framing, each length in four little-endian bytes. |
| Framing.DecodeFramed | web-portal/mls-crypto/src/lib.rs:70-86 | The loop computes the decoding, both truncation errors included. |
| Framing.WrappedEndNeverAccepts | web-portal/mls-crypto/src/lib.rs:74-82 | With 32-bit indices the end of an entry that is there never wraps, and a wrapped end lies before the entry, where slicing stops the program. |
| Membership.LeavesToRemove | web-portal/mls-crypto/src/lib.rs:532-550 | Exactly the leaves with a listed label other than this device's own, each once; an error exactly when a label has no such leaf, naming the first. |
| Membership.RemoveOwnStaleLeaves | web-portal/src/mlsSession.js:890-907 | After an accepted cleanup exactly one leaf carries this device's label, its own, and every other member is still there. |
| ChannelTree.GetDescendants | services/media-rust/src/main.rs:259-273 | On every tree, cyclic or malformed included: terminates and returns, without duplicates, exactly the channels reachable by one or more child links. |
| ChannelTree.RootOnlyOnCycle | services/media-rust/src/main.rs:255-273 | The root is its own descendant if and only if it lies on a cycle. |
| DuckLock.ReleaseFollowsRefresh | services/media-rust/src/main.rs:352-370 | In every reachable state a room has a speaker exactly when it has a release time, always 1500 ms after the last refresh. |
| DuckLock.LockChangesHands | services/media-rust/src/main.rs:1921-1988 | A speaker is replaced directly only through a cascade from a room the new speaker holds; otherwise the lock ends only when its speaker leaves, the room goes, or 1500 ms after its last refresh. |
| DuckLock.LockIsKept | services/media-rust/src/main.rs:1921-1958 | For 1500 ms after a refresh no run of other local speakers' packets and sweeps takes the lock away. |
| DuckLock.Relay.PriorityPacket | services/media-rust/src/main.rs:1921-1988 | The class holds the room registry and the channel tree; here: a room that is free or the sender's own is taken for 1500 ms with every reachable room, all others unchanged, otherwise nothing changes; and whether a Duck message goes out. |
| VideoRelay.RelayToSubscriber | services/media-rust/src/main.rs:2709-2747 | For every sequence of frames, lags and delays: a written delta is at most 300 ms old and, unless the first frame received, directly follows the frame written before it; no keyframe is dropped; no fresh frame right after a written one is dropped. On the bytes: a written chunk with an odd flags byte directly follows the one before it, and no chunk with an even one is dropped. |
| VideoRelay.OtherFlagsIgnored | services/media-rust/src/main.rs:66-68 | Only the delta bit of the flags byte decides what is a keyframe. |
| VideoRelay.AcceptFrames | services/media-rust/src/main.rs:2402-2427 | Every accepted frame has 1 to 25,000,000 bytes; any 21 successive accepted large frames span more than a window, and a large frame is refused only when ten came within the last window. |
| VideoRelay.AtMostTwentyInAnyInterval | services/media-rust/src/main.rs:82-84 | So no 5-second interval contains more than 20 accepted frames over 5 MB. |
| AudioFrame.FrameRoundTrip | web-portal/src/voiceRelayAudio.js:50-140 | Decoding an encoded frame gives back payload, ssrc, flag, the sequence without its top bit, and the signature or none when it is empty. |
| AudioFrame.VarintRoundTrip | web-portal/src/voiceRelayAudio.js:41-48 | Every uint32, one to five bytes long, reads back under JavaScript's 32-bit shifts. |
| AudioFrame.EncodeFrame | web-portal/src/voiceRelayAudio.js:105-140 | The encoder's byte pushes build the frame's fields in order. |
| AudioFrame.DecodeFrame | web-portal/src/voiceRelayAudio.js:50-100 | The decoder's nested loops compute the decoding of every buffer whose lengths are not negative, unknown fields skipped. |
| AudioFrame.ReaderEnds | web-portal/src/voiceRelayAudio.js:58-97 | On a buffer without negative lengths the outer loop ends after at most one round a byte. |
| AudioFrame.ReaderCanLoop | web-portal/src/voiceRelayAudio.js:83-91 | On six given bytes the reader never ends. |
| AudioFrame.EndsFromBeforeStartIff | web-portal/src/voiceRelayAudio.js:58-97 | A reader taken before the buffer by a negative length ends if and only if it lands an odd number of bytes before the start and ends when it goes on after the first varint. |
| Bits.Uint32RoundTrip | web-portal/src/voiceRelayAudio.js:41-42 | Every length below 2^32 survives the trip through its 32-bit pattern. |
| KeyGrace.EachKeyFreedOnce | web-portal/src/voiceRelayAudio.js:292-335 | Over every run of installs, expiries and clears, each key ever installed is held or was freed, never both and never twice, and the replaced key is held exactly while its timer runs. |
| KeyGrace.ClearFreesAll | web-portal/src/voiceRelayAudio.js:308-316 | After a clear no key is held and every installed key has been freed. |
| KeyGrace.KeySlot.InstallKey | web-portal/src/voiceRelayAudio.js:320-331 | The slot after an install: a rekey, a swap back, a no-op or a clear. |
| EventSchema.ValidateEvent | shared/events/schema.js:361-377 | No errors exactly when some shape expected on the subject is satisfied at every depth; otherwise the errors of an expected shape that has fewest, each located in the event, or the exact reason no shape was tried. |
| EventSchema.SilentIffConforms | shared/events/schema.js:322-353 | The checker is silent on exactly the values that conform to a spec, at every depth. |
| EventSchema.SubjectMatches | shared/events/schema.js:302-311 | The matcher equals the recursive definition of NATS wildcards, its early exit included. |
| EventSchema.MatchesTokenwise | shared/events/schema.js:302-311 | That definition, token by token: all tokens match and the lengths are equal, or all match before the first '>' and at least one more follows. |
| EventSchema.SampleConforms | shared/events/schema.js:381-394 | A generated sample satisfies its spec if and only if every leaf in it has a sample of a listed type. |
| EventSchema.SamplesValidate | shared/events/schema.js:400-406 | Every sample event of a well-formed, sampleable shape validates on the subject it carries. |
| EventSchema.NullHasNoSample | shared/events/schema.js:381-394 | The sample of a bare null field does not satisfy it. |
| SessionEvents.TwoSavesServeEveryWaiter | web-portal/src/mlsSession.js:325-378 | Every waiter is served: over any run without a failed save or a reset, whatever else happens, after two successful saves its version is durable and it waits no more. |
| SessionEvents.WaiterKeepsWriterBusy | web-portal/src/mlsSession.js:329-342 | As long as anybody waits a save is in flight; if the waiter is still there after a successful one, the next save is a durable one of the newest state. |
| SessionEvents.SavesCarryTheirState | web-portal/src/mlsSession.js:332-335 | Over any run, each save sent for the bound account carries exactly the state that was committed, or loaded, as its version; one of the newest version carries the cached state. |
| EventSchema.ProblemsAreLocated | shared/events/schema.js:322-353 | Every reported problem is where it says: a mismatch at a value that is there, is not what was expected and has the type named; a missing key in an object that lacks it. |
| Groups.ReplayTakesOver | web-portal/src/mlsSession.js:752-778 | What a truthful reply does to a copy, exactly: it takes over the log's commits as far as they are quoted without a gap and none is the device's own; its ratchets start anew if there was any. |
| Groups.CatchUpTakesOver | web-portal/src/mlsSession.js:740-778 | The same in the device state: the welcome joined first where the group is not held, every other group unchanged, nothing changed without a copy. |
| Groups.LabelsAreOnlyLowerBounds | web-portal/src/mlsSession.js:758-763 | A commit labelled with a later epoch than its own is merged all the same. |
| ProtocolEvents.EncryptEffect | web-portal/src/mlsSession.js:1251-1264 | Possible exactly with the lock free and the group held; the ciphertext takes the copy's position, the copy moves one on, and the holder waits for that version. |
| ProtocolEvents.DecryptEffect | web-portal/src/mlsSession.js:1284-1297 | The receive position moves one on under a new version nobody waits for. |
| ProtocolEvents.WelcomeEffect | web-portal/src/mlsSession.js:1417-1435 | A published welcome is joined exactly when the group is not held, at that history with new ratchets. |
| ProtocolEvents.LiveCommitEffect | web-portal/src/mlsSession.js:1437-1458 | A live commit is merged exactly when the lock is free, the group held, and the commit the server's, of the copy's epoch and another device's; the history then ends with it, the ratchets start anew, all else is as before. |
| ProtocolEvents.CaughtTakesOver | web-portal/src/mlsSession.js:725-778 | A device state changes in a catch-up exactly if there is a welcome to join or a next commit to merge, and then takes over what there is. |
| ProtocolEvents.CatchUpEffect | web-portal/src/mlsSession.js:725-778 | A catch-up commits exactly when the lock is free, the reply truthful and something to take over; the holder then waits for the new version. |
| ProtocolEvents.BuildEffect | web-portal/src/mlsSession.js:608-613 | A change, a new group and an external commit are planned exactly one ahead of their base; nothing is adopted or sent. |
| ProtocolEvents.SubmitEffect | web-portal/src/mlsSession.js:614-624 | The plan goes out exactly when the state it was built on is durable, with exactly its bytes. |
| ProtocolEvents.AdoptEffect | web-portal/src/mlsSession.js:586-641 | A submitted commit is adopted exactly when the server took it or a truthful log names it; the copy is then the plan's result with new ratchets. |
| ProtocolEvents.NothingToAdopt | web-portal/src/mlsSession.js:608-641 | Without a submitted commit nothing is adopted. |
| ProtocolEvents.AbandonEffect | web-portal/src/mlsSession.js:627-630 | Giving up before or after the submit frees the lock and leaves the copy alone. |
| ProtocolEvents.AcceptEffect | web-portal/src/mlsSession.js:608-624 | What the server accepts becomes its log's next commit and can be handed out; no device changes. |
| ProtocolEvents.UploadEffect | web-portal/src/mlsSession.js:803-824 | A refreshed GroupInfo is published exactly for a copy at the server's epoch. |
| ProtocolEvents.DurableEffect | web-portal/src/mlsSession.js:371-385 | An operation returns, its ciphertext with it, exactly when its version is confirmed; a failed wait returns nothing. |
| ProtocolEvents.SendEffect | web-portal/src/mlsSession.js:325-335 | The newest state is sent exactly when it is not durable and nothing is in flight. |
| ProtocolEvents.DeliverEffect | web-portal/src-tauri/src/mls_store.rs:723-745 | A durable save that finished is on disk and confirmed; any other state is parked. |
| ProtocolEvents.LateSaveEffect | web-portal/src-tauri/src/mls_store.rs:710-745 | A save that outlived its webview does the same, unheard, and is refused once the files are handed over. |
| ProtocolEvents.FlushEffect | web-portal/src-tauri/src/mls_store.rs:604-616 | A flush writes what is parked and keeps it unless the write finished. |
| ProtocolEvents.StartEffect | web-portal/src/mlsSession.js:499-569 | A start takes what the load finds as durable, makes a new identity where nothing was ever committed, and fails where files cannot be read. |
| ProtocolEvents.StopEffect | web-portal/src-tauri/src/mls_store.rs:632-639 | A crash keeps the files alone; a reload or hand-off leaves the save in flight running. |
| ProtocolEvents.BackgroundEffect | web-portal/src-tauri/src/background_sync.rs:161-196 | A background decrypt moves the receive position of what it loaded and saves that; what was parked is dropped. |
| SessionEvents.RequestEffect | web-portal/src/mlsSession.js:285-294 | Lock work queues behind everything called before it, under its account. |
| SessionEvents.TakeEffect | web-portal/src/mlsSession.js:285-300 | The next in line runs on the committed state if its account is current and it finds a state or creates one; a refused creation of an earlier account drops the cached state. |
| SessionEvents.ReleaseEffect | web-portal/src/mlsSession.js:561-569 | Ending lock work frees the lock; only a creation's end does more. |
| SessionEvents.CommitEffect | web-portal/src/mlsSession.js:303-309 | A commit is the new cached state under the next version and its save goes out if none is in flight; work of an earlier account commits nothing. |
| SessionEvents.AdoptEffect | web-portal/src/mlsSession.js:632-640 | An accepted own commit is committed exactly if the cached state is still its base. |
| SessionEvents.WaitEffect | web-portal/src/mlsSession.js:371-378 | At once for a durable version; otherwise one more waiter, and a durable save is asked for. |
| SessionEvents.SaveOkEffect | web-portal/src/mlsSession.js:334-342 | The versions after a successful save, exactly the waiters still behind, and the next save owed. |
| SessionEvents.SaveErrorEffect | web-portal/src/mlsSession.js:343-363 | A failed save leaves nobody waiting; one refused for a stale account also resets the session. |
| SessionEvents.ResetEffect | web-portal/src/mlsSession.js:445-463 | The next generation, with no state, no identity, nobody waiting and nothing owed to disk. |
| SessionEvents.IdentityEffect | web-portal/src/mlsSession.js:474-569 | A loaded state is bound as durable; without one the device registers and queues its creation; what returns for an earlier generation changes nothing. |
| StateStore.LoadAnswers | web-portal/src-tauri/src/mls_store.rs:278-320 | Every answer of a load with its exact condition: fresh, the first readable state, unreadable, key missing, keyring out of reach. |
| StateStore.SaveAnswers | web-portal/src-tauri/src/mls_store.rs:326-337 | A save returns Ok exactly if it obtained a key and the write finished; without a key no file is touched. |
| StateStore.WriteByFile | web-portal/src-tauri/src/mls_store.rs:230-253 | Each of the three files after a write stopped anywhere. |
| StateStore.ResolveKeyByAnswer | web-portal/src-tauri/src/mls_store.rs:131-154 | Each answer of the key decision, and what is stored, with its exact condition. |
| StateStore.RestartForgetsKey | web-portal/src-tauri/src/mls_store.rs:510-511 | A restart keeps files and keyring entry and forgets the cached key. |
| OwnershipEvents.WriteEffect | web-portal/src-tauri/src/mls_store.rs:593-601 | A write changes only its account's files, as cut, and is acknowledged exactly if it finished. |
| OwnershipEvents.SaveEffect | web-portal/src-tauri/src/mls_store.rs:710-745 | Which saves are accepted, and what is deferred or written and kept. |
| OwnershipEvents.FlushEffect | web-portal/src-tauri/src/mls_store.rs:604-616 | A flush writes what is deferred to its own account and keeps it unless the write finished. |
| OwnershipEvents.LoadEffect | web-portal/src-tauri/src/mls_store.rs:618-623 | A load flushes first and claims the account exactly if it finds a state or nothing was ever committed. |
| OwnershipEvents.HandOverEffect | web-portal/src-tauri/src/mls_store.rs:632-639 | A hand-off flushes and takes the account from the window; showing the engine and a restart bring the foreground back. |
| OwnershipEvents.BackgroundEffect | web-portal/src-tauri/src/background_sync.rs:161-196 | The background task flushes, loads, adds its change to what it loaded, drops what is deferred there and writes durably, in the background only. |
| Migration.RunMarksFirst | web-portal/src-tauri/src/mls_store.rs:472-489 | A run that passes its checks writes the marker before it moves anything, then tmp, bak and main as far as it gets. |
| Migration.RunNeedsOwner | web-portal/src-tauri/src/mls_store.rs:435-470 | A run does nothing unless the files it can read name an owner and the marker, or an unused directory, agrees. |
| Heal.RefusedAttemptTouchesNothing | web-portal/src/mlsSession.js:836-849 | Without a current GroupInfo the call says why and touches neither the copy nor the server. |
| Heal.AttemptEnds | web-portal/src/mlsSession.js:850-883 | Joined without a copy, resynced with one; rejected only after a lost reply; the log after a lost race. |
| Heal.HealGroupDecides | web-portal/src/mlsSession.js:1107-1118 | A listed device heals unless it holds the group unforced and its first catch-up went unanswered or found nothing amiss. |
| Heal.UnlistedOnlyCatchesUp | web-portal/src/mlsSession.js:1110-1115 | A device that is not on the member list only catches up. |
| GroupKeys.EncodesAsJson | web-portal/mls-crypto/src/lib.rs:298-317 | The encoding of three ids, byte for byte. |
| GroupKeys.DecimalIsShortest | web-portal/mls-crypto/src/lib.rs:298-317 | Each byte is written without leading zeros. |
| GroupStorage.DeviceKeysStay | web-portal/mls-crypto/src/lib.rs:364-391 | Entries under the four device-wide labels stay, whatever bytes they hold. |
| GroupStorage.GroupStateKeyText | web-portal/mls-crypto/src/lib.rs:397-410 | The key a listed group is read from, byte for byte. |
| GroupStorage.ParserIsLenient | web-portal/mls-crypto/src/lib.rs:319-339 | Blanks, a plus sign and leading zeros are parsed; only the comparison with the encoding refuses them. |
| Framing.FramingBytes | web-portal/mls-crypto/src/lib.rs:61-86 | The framing of a list, byte for byte, each length lowest byte first. |
| ChannelTree.LinksLeadDown | services/media-rust/src/main.rs:259-273 | A link leads from the parent a channel names to the channel; who is nobody's parent reaches nothing. |
| DuckLock.PacketTakesRooms | services/media-rust/src/main.rs:1921-1988 | Over any run, a priority packet takes a free room or renews its own with all it cascades to, for 1500 ms, members and other rooms unchanged; from a room held by another nothing changes. |
| DuckLock.SweepReleases | services/media-rust/src/main.rs:352-370 | A sweep at or after the release time clears the lock and changes nothing else. |
| DuckLock.JoinAdds | services/media-rust/src/main.rs:1320-1388 | A join adds the member, to a new free room if there is none. |
| DuckLock.LeaveRemoves | services/media-rust/src/main.rs:1600-1628 | A leave takes the member out and releases their lock; the room goes exactly with its last member. |
| VideoRelay.KindByFlags | services/media-rust/src/main.rs:66-68 | Empty is the end; more than four bytes with an even flags byte (0 or 2 in use) a keyframe; anything else a delta. |
| VideoRelay.LargeMeansOver5MB | services/media-rust/src/main.rs:2402-2427 | Exactly the frames over 5 MB count for the limit. |
| AudioFrame.WireBytes | web-portal/src/voiceRelayAudio.js:105-140 | An encoded frame and a two-byte varint, byte for byte. |
| AudioFrame.NumbersByField | web-portal/src/voiceRelayAudio.js:78-80 | What fields 2, 3 and 4 set; the flag for any value but zero. |
| AudioFrame.UnknownFieldsAreSkipped | web-portal/src/voiceRelayAudio.js:58-97 | A field of another number changes nothing; another wire type ends the reading. |
| AudioFrame.CutShortReads | web-portal/src/voiceRelayAudio.js:82-91 | A field or varint that promises more than there is gets what there is. |
| AudioFrame.SixthByteWraps | web-portal/src/voiceRelayAudio.js:61-66 | From the sixth byte on the shift count wraps. |
| Bits.BitsAreWorth | web-portal/src/voiceRelayAudio.js:41-42 | Higher bits are worth more, by example. |
| KeyGrace.InstallRekeys | web-portal/src/voiceRelayAudio.js:320-331 | After an install the new key is current and the replaced one previous; the displaced one is freed unless it is the key that comes back. |
| KeyGrace.ExpiryEndsGrace | web-portal/src/voiceRelayAudio.js:300-316 | The end of the grace period frees the previous key and keeps the current one; a clear keeps neither. |
| EventSchema.TypeNamesAdmit | shared/events/schema.js:315-333 | Which values each type name admits, by kind of value. |
| EventSchema.UnionAdmitsEither | shared/events/schema.js:330-332 | A bar admits what either side admits. |
| EventSchema.LiteralAdmitsItself | shared/events/schema.js:324-328 | A literal admits exactly its text. |
| EventSchema.RequiredMeansPresent | shared/events/schema.js:345-349 | A required key must be there and not undefined. |
| EventSchema.LeavesAreSampled | shared/events/schema.js:381-391 | What a leaf is sampled as, by its first alternative. |
| EventSchema.SampleCarriesSubject | shared/events/schema.js:400-406 | A sample event names its type, and a subject without wildcards that its shape expects, unless the shape has none. |

## Left out

- The MLS library itself, encryption, signatures and key derivation: a group copy
  is its commit history; processing a commit succeeds exactly on a commit of the
  local epoch that is not the device's own. Commit bytes are unique.
- The server's controllers: an append-only log that accepts the next epoch only
  and quotes itself truthfully; losing, delaying and repeating replies is modelled.
- The keyring entry is not deleted or replaced by others, renames are atomic, and
  a directory sync that fails is not distinguished from one that succeeds.
- StateStore.CrashSafe: promises nothing for states merely loaded, see `LoadedSurvivesNextWriteIff`.
- Ratchet.NoPositionUsedTwice: holds for runs without a late save of an old state and without a load that goes on
  from an old backup; it is false beyond them, see `LateSaveReusesPosition` and `UnreadMainReusesPosition`, and the
  exact conditions in `LateSaveHarmlessIff`, `StartNeverFallsBehind` and `BackgroundHarmlessIff`.
- Protocol.Agreement: the background task's answers to backfill requests read no MLS state and are left out.
- SessionState.NoLostUpdate: one chain lasts from binding an account to the next reset; what a reset loses is the
  subject of `CommittedLostIff`.
- SessionState.OnlyCurrentAccountCommits: states are compared by value where the code compares references.
- SessionState.AlwaysOk: running outside the desktop shell, where nothing is persisted, is not modelled.
- Ownership.FilesNeverGoBack: "newer" is the order in which states were handed to the store; lineage is the
  subject of `DeferredSurvivesIff`.
- SubmittedBase.SubmittedBaseSurvivesIff: the session starts with nothing deferred and no save call left over.
- SessionState.StaleCreationTouchesIff: the device credential a finished creation of an earlier account leaves in
  memory is not part of this model.
- Migration.MigrationLosesNothing: the best-effort move of the message cache, a marker that cannot be read, a file
  whose stat fails just when it is to be moved, and resuming with an account directory that someone else wrote to
  meanwhile, are not modelled.
- Heal.SelfHealConverges: a Welcome that arrives during a heal, and servers that do not report their epoch, are left out.
- Heal.HealGroupConverges: member lists are one flag, and debouncing and retry pauses are left out.
- GroupStorage.DeletesExactly: what the MLS library's own delete removes is any set of entries naming the group.
- GroupStorage.ListsExactlyTheGroups: the listing is a set; its sorting and lossy text conversion are left out.
- Framing.DecodeFramed: indices are unbounded; `WrappedEndNeverAccepts` is what 32-bit ones add.
- AudioFrame.DecodeFrame: a length with its top bit set, which steps the reader backwards, ends this method with an
  error; the reader's positions in that case are the subject of `ReaderCanLoop` and `EndsFromBeforeStartIff`.
- EventSchema.ValidateEvent: keys inherited from JavaScript's object prototype, coercion of non-string types and
  subjects, and the text of messages are left out; a problem is its path and the two types.
- EventSchema.SamplesValidate: overrides, and shapes that name subject or type as fields, are left out.
- DuckLock.LockChangesHands: roster messages are left out; a speaker who leaves clears the lock without a release message.
- VideoRelay.RelayToSubscriber: the first frame a subscriber receives may be a delta.
- KeyGrace.EachKeyFreedOnce: the caller does not install a key it has seen freed.
- Opening a received frame and the cipher replacement check: a few comparisons around foreign code.
- The mixing task, transport, tickets, billing, publish teardown, user interface, device-status reports and logging.
