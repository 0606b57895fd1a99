# vold: checkpoints, keys and in-place encryption

vold is Android's volume daemon. This project models four of its stateful algorithms and proves what they are
for. Each of them must be right at every moment, because power may be lost or another operation may come in between.

**Rolling back a block checkpoint** (`Checkpoint.cpp`). While a checkpoint is active, a log records where the old
contents of overwritten sectors went. Rolling back replays that log in reverse: a first pass validates the whole log
without writing, reading *as though* earlier entries had been copied; a second pass copies, and saves restart points in
block 0. `Relocations` and `UsedSectors` are the two interval maps, `Checksum` the table-driven checksum, `LogFormat` and
`Bytes` the on-disk layout, `LogEncoding` which bytes it is and which headers and entries are accepted, `Replay` the meaning of a log, `Validation` the relation between the two passes, `Restoring` and
`CrashRecovery` what survives power cuts and partial runs, `Sessions` the same when a run's unsynced
writes are carried into the next, `Corruption` what the checksum refuses, and `RestoreCheckpoint` the command
itself. `SmallLog` and `CheckedLog` are concrete logs to which the results apply.
`RetryFile` is the boot-retry counter and the checkpoint flags. The disk is a sequence of sectors behind a write cache
(`BlockDevice`): until the next sync an unsynced sector may hold *anything* after a power cut, except that block 0 is
written atomically.

**Upgrading and storing keys** (`KeyStorage.cpp`). A key directory names a Keystore key, and deleting a Keystore key
cannot be undone. `KeyUpgrade` is the upgrade protocol as a state machine over single file operations, Keystore calls, power
cuts, checkpoints and rollbacks, for any interleaving; `KeyLineage` traces which keys open which ciphertext, and
`KeyDeletions` which directories name deleted keys;
`KeyDirectories` adds the other files, the names and what of them a power cut leaves; `KeyMoves` describes operations made of
such moves; `KeyStorage` is the code, as a class whose methods perform those moves while calls may fail and, while a key is used, the checkpoint
may be committed. Its `trace` records every intermediate store, so that what holds of every run holds wherever a method is
cut off.

**Bindings of users' keys** (`FsCrypt.cpp`). A user's key is stored in one or more directories, ordered by name; *fixating*
one destroys the others, possibly put off until a checkpoint is committed. `CeKeyNames` is the naming scheme,
`CeBindings` says when every power cut, or a rollback, leaves a binding from which a key can be retrieved;
`CeChanges` what operations keep of that at every moment, `CeProtection` which key is protected and what putting off a
fixation promises, and `CeKeys` is the code, over `KeyStorage`. `CeRuns` has the runs in which a key is lost.

**Encrypting in place** (`EncryptInplace.cpp`). Plaintext is read and ciphertext written over the same storage, in
batches, so a block must be processed exactly once. `InPlaceRuns` says what a run does, transfer by transfer;
`InPlaceExactlyOnce` what it achieves; `InPlaceGroups` which blocks are used, by number; `InPlaceBitmaps` when the bitmaps tell it the used blocks; `InPlaceEncryption` is the
code: the batching, the ext4 group walk and the full-device fallback. `InPlaceExamples` has the runs that succeed and go wrong. `Arithmetic`, `OrderedMap` and `Wrappers` are shared.

Where the code does not do what its comments or its surroundings suggest, the model follows the code:

- `checkCollision` decrements the iterator it goes on to compare (`Checkpoint.cpp:536-537`), so it reports every nonempty range.
  Every entry is therefore preceded by a restart point, which is what makes the crash theorem hold for arbitrarily reordered writes.
- A checkpoint started with -1 on a device with a slot suffix never asks for rollback: the file says `0 suffix`
  (`Checkpoint.cpp:139-144`) and the check looks for `-1 suffix` (`Checkpoint.cpp:267`). `RetryFile.RollbackAfterRetries` states exactly when rollback is asked for.
- `EncryptInPlaceExt4` ignores the result of `ProcessUsedBlock` (`EncryptInplace.cpp:227`).
  `InPlaceExamples.DroppedResultSkipsABlock` is a run on a layout where it reports success with a block left in plaintext, and
  `InPlaceExactlyOnce.RunIsExactIffClean` says exactly when that does not happen: when every transfer worked, which the count shows.
- Bitmaps are read raw as the walk goes (`EncryptInplace.cpp:217`), so a bitmap that lies in a used block of an earlier group may be read after that
  block was encrypted. `InPlaceExamples.AnUnusedBlockIsEncrypted` is such a run; `InPlaceBitmaps.ExactIffBitmapsHold` is the exact condition, in
  terms of the blocks that are flushed by then (`InPlaceBitmaps.ExactIffAlike` adds blocks that happen to be the same encrypted), and whatever the bitmaps say, each block they name is encrypted exactly once.
- Upgrade safety needs that no checkpoint begins while the sweep after the previous one is still due;
  `SweepExample.BeginDuringSweepLosesAKey` shows what happens otherwise.
- A new binding whose last sync failed (`KeyStorage.cpp:618`) stays on disk; if the user then unlocks with the new secret, the old binding is
  destroyed for one that may not survive a power cut. `CeRuns.UnsyncedKeyIsLost` is a run; `CeBindings.KeySurvivesIffHeld` and
  `CeChanges.OnlyKeptIsSafe` are the exact condition. Unlocking and protecting keep a user's key at every moment as long as that user's own
  bindings are there to stay, as they are after boot and after every protection that stored one; other users' keys they keep in any case.
- Unlocking fixates at once even while a checkpoint is active (`FsCrypt.cpp:222-223`), so when a key is protected and unlocked in the same checkpoint
  its old Keystore key is deleted, and a rollback leaves a binding that no longer opens. `CeRuns.UnlockedKeyIsLost` is a run;
  `CeBindings.RollbackYieldsIffSpared` is the exact condition.
- When `current` is missing and the directory cannot be read (`FsCrypt.cpp:382`), a key on disk is taken for missing; a random one takes its place
  and the old binding is destroyed (`FsCrypt.cpp:814-847`). `CeRuns.OverlookedKeyIsLost` is a run; `CeKeys.FsCrypt.SetUserKeyProtection` keeps the key
  if and only if a binding is seen (or the random key happens to be that key).

## Model

| member | source | states |
|---|---|---|
| Relocations.RelocatedIsPointwise | Checkpoint.cpp:491-523 | after a relocation a sector inside [dest, dest + count) is found where sector x - dest + source was found before, every other sector where it was, for any overlap; key 0 stays present |
| Relocations.RelocationMap.Relocate | Checkpoint.cpp:501-523 | the in-place edits (slice, split at the end, erase, insert) produce exactly the relocated map, and so redirect pointwise |
| Relocations.RelocationMap.TakeSlice | Checkpoint.cpp:501-512 | the loop collects every boundary of the source range, moved to the destination |
| Relocations.RelocatedStaysAligned | Checkpoint.cpp:501-523 | block-aligned moves keep every boundary and target on block boundaries |
| Relocations.BlockIsContiguous | Checkpoint.cpp:616-625 | on an aligned map a whole block is relocated by one offset, so one look-up per block is enough |
| UsedSectors.MarkedIsUnion | Checkpoint.cpp:547-560 | the used sectors become the old ones united with [start, end), for every overlap, adjacency and exact-key case |
| UsedSectors.MarkedIsCanonical | Checkpoint.cpp:525-560 | strictly alternating entries, an entry at 0 and a final false entry are kept |
| UsedSectors.UsedMap.MarkUsed | Checkpoint.cpp:547-560 | inserting both ends and erasing between the two adjusted positions is exactly that marking |
| UsedSectors.UsedMap.CheckCollision | Checkpoint.cpp:535-545 | never misses an overlap with a used sector; in fact reports every nonempty range, and an empty one exactly if start is used or end lies above the last boundary at or below start |
| Checksum.TableEntry | Checkpoint.cpp:440-484 | every table entry is eight shifts of its index through the reflected polynomial 0xEDB88320 (section 8 of RFC 1952) |
| Checksum.TableDrivenIsBitSerial | Checkpoint.cpp:439-489 | the table-driven checksum equals bit-serial reflected division over the bits of the buffer, from any starting value |
| Checksum.CrcConcat | Checkpoint.cpp:719-722 | checksumming piece by piece is checksumming the concatenation |
| Checksum.Crc32 | Checkpoint.cpp:439-489 | the loop computes that checksum |
| Checksum.OneByteChangeIsDetected | Checkpoint.cpp:439-489 | changing one byte changes the checksum |
| RestoreCheckpoint.BlockwiseChecksum | Checkpoint.cpp:719-722 | the block-by-block loop gives the checksum of the whole entry |
| Corruption.CorruptEntryIsRefused | Checkpoint.cpp:719-727 | if one byte of the saved contents of an accepted, checksummed entry changes, the entry is refused |
| LogFormat.RestartHeader | Checkpoint.cpp:570-576 | rewriting count and magic in the buffer changes those two header fields and no other |
| LogFormat.RestartEntry | Checkpoint.cpp:570-576 | the rewritten header leaves every entry as it was |
| LogFormat.RestartAgain | Checkpoint.cpp:570-576 | a later restart point overwrites an earlier one |
| LogFormat.PartialHeader | Checkpoint.cpp:583-588 | marking the next log block as begun changes only its magic |
| LogEncoding.HeaderIsRead | Checkpoint.cpp:424-432 | a header whose fields stand little-endian at bytes 0, 6, 8, 12, 16 and 20 is read as these fields, sector0 as 64 bits |
| LogEncoding.EntryIsRead | Checkpoint.cpp:417-422 | entry i, whose fields stand little-endian at bytes 0, 8, 16 and 20 of the 24 bytes from header_size + 24 * i on, is read as these fields |
| LogEncoding.HeaderReadsBack | Checkpoint.cpp:424-432 | a log block laid out field after field as the packed structures are declared, of any header size that leaves room, reads back as its header |
| LogEncoding.EntryReadsBack | Checkpoint.cpp:417-422 | and as each of its entries |
| LogEncoding.HeaderAcceptedIff | Checkpoint.cpp:676-699 | a header is accepted if and only if its magic, block size and sequence (as a signed 32-bit number) fit, it has at least 28 bytes, and it and its entries, at least one, lie inside the block |
| LogEncoding.EntryAcceptedIff | Checkpoint.cpp:709-727 | an entry is accepted if and only if it is at least a block and with one more block below 2^32 bytes, its saved contents lie on the device, and its checksum is 0 or the remainder of the bit-serial division of these contents started from source / (sectors of a block); then exactly these contents are restored |
| LogEncoding.EntryAcceptedInDryRunIff | Checkpoint.cpp:709-727 | the dry run accepts an entry under the same condition on the disk that the relocations present |
| Validation.VirtualReadIsRead | Checkpoint.cpp:601-628 | a validating read through the relocations returns what a plain read of the really copied disk returns, failures included |
| Validation.CopyIsPresented | Checkpoint.cpp:491-523 | relocating tracks one real copy: the untouched disk seen through the map stays equal to the copied disk |
| Validation.VirtualUndoIsUndo | Checkpoint.cpp:701-740 | the dry run over the entries of a log block succeeds exactly when really undoing them does, and tracks the result |
| Validation.ValidatesIffUndoable | Checkpoint.cpp:661-741 | the whole validating pass accepts exactly the logs whose reverse replay succeeds |
| BlockDevice.UnsyncedMayHoldAnything | Checkpoint.cpp:564-596 | until the next sync each sector of a write may hold anything after a power cut, whatever else is written |
| BlockDevice.HeadMayBeOldOrNew | Checkpoint.cpp:570-580 | block 0, once written, may be the old one or the new one |
| Restoring.EntryFollows | Checkpoint.cpp:564-596 | restoring an entry does to everything beyond block 0 what undoing it does |
| Restoring.BlockFollows | Checkpoint.cpp:701-740 | the same for a whole log block, whose last entry brings back the next log block |
| Restoring.RestoreFollowsUndo | Checkpoint.cpp:661-771 | the real pass over an undoable log succeeds and ends on the reverse replay |
| CrashRecovery.EntryIsSafe | Checkpoint.cpp:564-596 | at every moment of restoring one entry, and for every disk a power cut may leave, restoring again reaches the same goal |
| CrashRecovery.PassIsSafe | Checkpoint.cpp:661-740 | the same for the whole restoring pass |
| CrashRecovery.AcceptedLogIsRecoverable | Checkpoint.cpp:650-741 | a fresh well-formed log that validates can be restored, and the goal is its reverse replay |
| CrashRecovery.PowerCutIsRecoverable | Checkpoint.cpp:525-596 | whatever a power cut leaves, with unsynced sectors holding anything, still restores to the goal |
| CrashRecovery.RestoreSurvivesPowerCuts | Checkpoint.cpp:632-772 | after any number of interrupted restores one complete restore ends on the same disk as an uninterrupted one |
| CrashRecovery.AllOrNothing | Checkpoint.cpp:742-771 | without I/O errors a fresh log is replayed entirely, all checks of the second pass passing, or only block 0 changes, to the contents at sector0 |
| CrashRecovery.LimitIsInterruption | Checkpoint.cpp:733-739 | a run stopped by its limit leaves what a power cut might have left |
| CrashRecovery.LimitedRunsCompose | Checkpoint.cpp:632-739 | any runs with limits followed by an unlimited one end where a single unlimited run ends |
| SmallLog.SmallLogIsRestored | Checkpoint.cpp:632-772 | a concrete two-sector log meets every condition of these results and is restored after any power cuts and partial runs |
| CheckedLog.AcceptedIffChecksumsFit | Checkpoint.cpp:701-771 | a concrete log of two entries, the second bringing back what the first then copies, with any contents and checksums: accepted if and only if both checksums fit the saved contents, started from sectors 3 and 0; then both sectors are restored, the later entry first, and otherwise sector 0 is what was in sector 2, where sector0 points |
| CheckedLog.CheckedLogIsRestored | Checkpoint.cpp:632-772 | accepted, it is restored after any power cuts and runs with limits |
| CheckedLog.OneEntryIsRestored | Checkpoint.cpp:733-739 | a run with limit 1 restores the last entry and stops: what is on the disk then, sector by sector |
| CheckedLog.StartMatters | Checkpoint.cpp:719-727 | with blank contents the checksum is not 0, is accepted if started from the sector to restore, and refused if started from any other |
| CrashRecovery.FreshLogSurvives | Checkpoint.cpp:632-772 | power cuts and limited runs both end on the reverse replay of the original disk |
| Sessions.SessionsSurvive | Checkpoint.cpp:632-772 | runs with limits that leave their writes unsynced for the next run, and power cuts in any of them, in any order and number: a complete run afterwards ends on the disk of one uninterrupted restore |
| Sessions.ForwardSurvives | Checkpoint.cpp:742-771 | rolling forward survives the same: at every moment block 0 is the log's or the original, and a complete run ends with the original |
| RestoreCheckpoint.RelocatedRead | Checkpoint.cpp:601-628 | reads plainly, or block by block through the relocations, as the specification does |
| RestoreCheckpoint.RestoreSector | Checkpoint.cpp:564-596 | the writes and syncs it issues, in order, its new header buffer and the new set of used sectors |
| RestoreCheckpoint.RestartPrecedesOverwrite | Checkpoint.cpp:570-592 | everything an entry overwrites is overwritten after a synced header that names this entry as the next one to redo and leaves all entries readable |
| RestoreCheckpoint.EntryContents | Checkpoint.cpp:710-727 | size check, read and checksum together give what `LogEncoding.EntryAcceptedIff` says, in both passes, or refuse |
| RestoreCheckpoint.ValidateEntries | Checkpoint.cpp:701-731 | the validating loop over a log block is the dry run, relocations included |
| RestoreCheckpoint.RestoreEntries | Checkpoint.cpp:701-740 | the restoring loop performs the specified steps up to the limit and reports accordingly |
| RestoreCheckpoint.ValidatePass | Checkpoint.cpp:664-741 | the first pass accepts exactly as specified and writes nothing |
| RestoreCheckpoint.RestorePass | Checkpoint.cpp:664-741 | the second pass performs a prefix of the specified steps, all of them without a limit |
| RestoreCheckpoint.RollForward | Checkpoint.cpp:749-762 | puts the original block 0 back, or fails without writing |
| RestoreCheckpoint.RestoreFrom | Checkpoint.cpp:632-772 | the whole command: final disk, every operation issued in order, and the status; it stops at the first number of restored entries that reaches a limit other than 0 |
| RetryFile.ParsesBack | Checkpoint.cpp:785-792 | a printed counter is parsed back |
| RetryFile.CounterAfterBoots | Checkpoint.cpp:774-796 | after n boot attempts the file holds the counter less n, and no less than 0 |
| RetryFile.RollbackAfterRetries | Checkpoint.cpp:133-150 | rollback is asked for exactly from the (retry + 1)-th boot attempt on, except when started with -1 on a device with a slot suffix |
| RetryFile.CounterNeverRises | Checkpoint.cpp:228-252 | no run of boot attempts and aborts raises the counter or takes it below 0 |
| RetryFile.RollbackNeededIff | Checkpoint.cpp:260-279 | rollback is asked for exactly by the contents `0`, and by `-1` with the suffix of the slot that runs |
| RetryFile.AbortSettles | Checkpoint.cpp:228-250 | after an abort a positive counter is 0 and any other file is as it was, through any further boot attempts and aborts; rollback is then asked for exactly if the counter was positive or it was asked for before |
| RetryFile.CheckpointState.StartCheckpoint | Checkpoint.cpp:133-150 | refuses unsupported devices and counts below -1, else writes the file |
| RetryFile.CheckpointState.MarkBootAttempt | Checkpoint.cpp:774-796 | counts a positive counter down by one, leaves any other file alone, or reports one that cannot be parsed |
| RetryFile.CheckpointState.AbortMetadataFile | Checkpoint.cpp:228-250 | sets a positive counter to 0, so that rollback is asked for; leaves any other file alone |
| RetryFile.CheckpointState.NeedsCheckpoint | Checkpoint.cpp:281-305 | decides once per boot, and afterwards repeats what was decided |
| RetryFile.CheckpointState.CommitChanges | Checkpoint.cpp:164-226 | ends the checkpoint, removes the file, and starts the deferred work only if all of that worked |
| RetryFile.CheckpointState.ResetCheckpoint | Checkpoint.cpp:798-801 | the decision is to be taken again |
| InPlaceExactlyOnce.BufferHoldsWholeBlocks | EncryptInplace.cpp:98-109 | the rounded-up buffer is the least of at least 32768 bytes that holds whole blocks, for any block size |
| InPlaceExactlyOnce.WindowGrows | EncryptInplace.cpp:155-168 | a batch that does not start at a window boundary stays inside its window when the next block is added |
| InPlaceExactlyOnce.WindowFits | EncryptInplace.cpp:133-153 | a batch inside one window never exceeds the buffer |
| InPlaceExactlyOnce.FlushKeepsExactlyOnce | EncryptInplace.cpp:133-153 | flushing a batch of blocks not done before keeps every block encrypted at most once and all others untouched |
| InPlaceExactlyOnce.OfferedStaysInWindow | EncryptInplace.cpp:155-168 | offering a block, whether or not the flush works, leaves a batch inside one window of the buffer |
| InPlaceExactlyOnce.RunIsExactIffClean | EncryptInplace.cpp:196-310 | for every layout: if every transfer works, a run succeeds exactly when all bitmaps and all blocks they name as they are read lie on the device, and then encrypts each of these blocks once, leaves all others alone and counts right; a run that succeeds counts right exactly when every transfer worked, and otherwise a block it was told of is left as it was |
| InPlaceExactlyOnce.ExactMeansClean | EncryptInplace.cpp:224-228 | on a disk of which no block is the same encrypted, a run that reports success has encrypted exactly the blocks it was told of if and only if every transfer worked |
| InPlaceBitmaps.NamedAreUsedIff | EncryptInplace.cpp:216-229 | in a run without failed transfers the blocks named by the bitmaps as they are read are the used blocks if and only if every bitmap of an initialised group whose block was flushed before it is read names the same blocks encrypted |
| InPlaceBitmaps.ExactIffBitmapsHold | EncryptInplace.cpp:196-310 | in a run without failed transfers on a disk of which no block is the same encrypted, each used block is encrypted exactly once and no other is touched if and only if the bitmaps hold in that sense |
| InPlaceBitmaps.ExactIffAlike | EncryptInplace.cpp:196-310 | for every cipher and disk: a run without failed transfers is exact if and only if the used blocks are on the device and each block that the bitmaps wrongly name or miss is the same encrypted |
| InPlaceBitmaps.KeptAreNamed | EncryptInplace.cpp:216-229 | if no bitmap of an initialised group lies in a used block of an earlier group, the run is told of the used blocks, whatever transfers fail |
| InPlaceRuns.UsedInIsExact | EncryptInplace.cpp:220-228 | the blocks processed in a group are exactly those marked in its bitmap, or all of them if it is uninitialised |
| InPlaceGroups.GroupsTile | EncryptInplace.cpp:180-187 | groups that reach to the end tile the filesystem: each block from the first data block on lies in exactly one group at one place, and no other block in any |
| InPlaceGroups.UsedByNumber | EncryptInplace.cpp:180-194 | which blocks are used, by number: in an uninitialised group the first 1 + bg_desc_blocks if it has a superblock and none otherwise, in any other those whose bit in the bitmap is 1, numbered from the lowest bit of the first byte |
| InPlaceRuns.UsedBlocksAreIncreasing | EncryptInplace.cpp:217-229 | over all groups the used blocks come in strictly increasing order |
| InPlaceEncryption.InPlaceEncrypter.InitFs | EncryptInplace.cpp:98-114 | starts over with nothing pending and nothing counted, with a buffer of whole blocks |
| InPlaceEncryption.InPlaceEncrypter.EncryptPendingData | EncryptInplace.cpp:133-153 | flushes as specified: contents, transfers made, batch and count, whichever transfer fails; never exceeds the buffer |
| InPlaceEncryption.InPlaceEncrypter.ProcessUsedBlock | EncryptInplace.cpp:155-168 | accepts the block as specified, flushing first when the batch ends, and forgets it when that fails; never exceeds the buffer |
| InPlaceEncryption.InPlaceEncrypter.EncryptInPlaceExt4 | EncryptInplace.cpp:196-231 | goes through the groups as specified, for any layout, with bitmaps as they are when they are read; which blocks these are is `InPlaceGroups.GroupsTile` |
| InPlaceEncryption.InPlaceEncrypter.EncryptFullDevice | EncryptInplace.cpp:258-265 | offers every sector as specified and stops at the first that is refused |
| InPlaceEncryption.InPlaceEncrypter.EncryptInPlace | EncryptInplace.cpp:249-310 | the whole run as specified, for every layout: when every transfer and the final sync work it succeeds exactly if every block it is told of lies on the device, and then has encrypted each of them once and no other; these are the used blocks, as `InPlaceGroups.UsedByNumber` has them, exactly if the bitmaps hold; if the sync fails the run fails |
| InPlaceExamples.DroppedResultSkipsABlock | EncryptInplace.cpp:224-228 | the whole run on a concrete layout whose second transfer fails: it reports success although used block 2 is left as it was |
| InPlaceExamples.AnUnusedBlockIsEncrypted | EncryptInplace.cpp:216-228 | the whole run on a concrete layout whose second bitmap lies in a used block of the first group: no transfer fails, and an unused block is encrypted |
| InPlaceExamples.OnlyTheFirstGroupIsUsed | EncryptInplace.cpp:216-228 | in that layout only blocks 0, 2 and 4 are used, and the condition on bitmaps fails |
| InPlaceExamples.BackupsAreEncrypted | EncryptInplace.cpp:191-228 | a run on a concrete layout whose first data block is 1, with a superblock backup and descriptors in one uninitialised group and nothing in another: exactly the blocks in use and the two backup blocks are encrypted |
| KeyUpgrade.StepKeeps | KeyStorage.cpp:226-394 | every step, by whomever and whenever, and every power cut and rollback keeps the protocol's invariant |
| KeyUpgrade.UpgradeSafety | KeyStorage.cpp:235-257 | in every run no directory that is not being destroyed names a deleted key: live, after any power cut, or after a rollback |
| KeyUpgrade.PendingAreReady | KeyStorage.cpp:229-323 | in every run each pending directory is listed once and has its upgraded key on disk |
| KeyUpgrade.SweepEndEmpties | KeyStorage.cpp:259-273 | when a sweep ends the list is empty and no checkpoint is active |
| KeyUpgrade.ListStaysEmpty | KeyStorage.cpp:382-389 | after that the list stays empty until a new checkpoint begins, whatever happens |
| SweepExample.ASweepIsDue | KeyStorage.cpp:382-386 | a run in which an upgrade was put off, the checkpoint is committed, and the sweep is still to come |
| SweepExample.BeginDuringSweepLosesAKey | Checkpoint.cpp:86-93 | if a checkpoint began while a sweep is due, its rollback would bring back a deleted key: of the first directory listed, or, if none is, of any whose upgrade is put off next |
| KeyLineage.StepTraces | KeyStorage.cpp:235-394 | every step keeps that each blob a directory shows or may show, and each upgraded key waiting to become one, traces back to the key generated for it |
| KeyDeletions.LostStays | KeyStorage.cpp:235-394 | a directory's blob names a deleted key from the moment that directory's key is destroyed, and for no other reason |
| KeyDeletions.StepKeepsLiveIsWorst | KeyStorage.cpp:235-394 | every step keeps that a power cut brings back no blob with a deleted key unless the live blob has one |
| KeyDirectories.MoveKeeps | KeyStorage.cpp:570-621 | every move keeps that only filled and synced directories can turn up under final names, and that these are complete |
| KeyDirectories.StoredIsRetrievable | KeyStorage.cpp:623-650 | a directory under a final name yields its key with the authentication it was stored with, whether its key was upgraded or not; the key is sealed by a Keystore key exactly if there is no secret |
| KeyDirectories.RetrievedExactly | KeyStorage.cpp:623-650 | a stored key is retrieved if and only if it was not overwritten, its Keystore key not deleted, and it is asked for with a secret exactly if it was stored with one, secret and seed together reading as they did then |
| KeyDirectories.OnlyItsSecretOpens | KeyStorage.cpp:437-454 | with the seed it was stored with, a usable key is retrieved with its own secret and with no other |
| KeyDirectories.OtherSaltOpensNothing | KeyStorage.cpp:437-454 | once another salt stands in a directory, its key is not retrieved |
| KeyDirectories.StoreIsAtomic | KeyStorage.cpp:604-621 | wherever any run is cut off or rolled back, a final name is absent, being destroyed, or complete and retrievable |
| KeyDirectories.UnsyncedMayBeUndone | KeyStorage.cpp:570-621 | whatever does not sync, a file written or a directory made, renamed or removed, may be undone by losing power right after it |
| KeyMoves.StoreCutOff | KeyStorage.cpp:604-621 | wherever one store is cut off, its name is absent, or what might have been there before, or yields the key being stored |
| KeyMoves.UsableKey | KeyStorage.cpp:357-363 | the key an operation uses has not been deleted |
| KeyStorage.KeyStorage.IsKeyCommitPending | KeyStorage.cpp:275-282 | the loop finds out whether any listed path is the same directory |
| KeyStorage.KeyStorage.DeleteUpgradedKey | KeyStorage.cpp:325-344 | leaves the blob, the list and the names alone, whatever fails; without failures the left-over file is gone and its key deleted |
| KeyStorage.KeyStorage.CommitUpgradedKey | KeyStorage.cpp:235-257 | the upgraded key becomes the blob; the old key is deleted only then, and nothing else is |
| KeyStorage.KeyStorage.SettleRename | KeyStorage.cpp:247-256 | the old key is deleted only after the rename is durable |
| KeyStorage.KeyStorage.WriteUpgradedKey | KeyStorage.cpp:380-381 | the upgraded key is on disk, or the operation fails; the blob, the list and the names are as they were either way |
| KeyStorage.KeyStorage.FinishUpgrade | KeyStorage.cpp:382-392 | on success the upgraded key is the blob, or the directory is listed with both keys on disk, whatever the checkpoint does meanwhile |
| KeyStorage.KeyStorage.BeginKeystoreOp | KeyStorage.cpp:346-394 | the operation uses the upgraded key while its commit is pending, else the blob; if Keystore asks for an upgrade the new key has replaced the old one or is listed to do so; no name or other file is touched; it fails only if a call does |
| KeyStorage.KeyStorage.DeferredCommitKeystoreKeys | KeyStorage.cpp:259-273 | empties the list; without failures every listed directory has its upgraded key as blob |
| KeyStorage.KeyStorage.CancelPendingKeyCommit | KeyStorage.cpp:291-301 | the loop removes the first entry for the directory |
| KeyStorage.KeyStorage.RenamePendingKeyCommit | KeyStorage.cpp:306-320 | the loop renames the first entry for the directory |
| KeyStorage.KeyStorage.RenameKeyDir | KeyStorage.cpp:303-323 | renames the directory and its entry in the list, or changes nothing |
| KeyStorage.KeyStorage.GenerateAppId | KeyStorage.cpp:437-454 | the salt, then the secret, then the seed if one was set; from then on no seed can be set |
| KeyStorage.KeyStorage.SetKeyStorageBindingSeed | KeyStorage.cpp:709-725 | works only before the first application id |
| KeyStorage.KeyStorage.EncryptWithKeystoreKey | KeyStorage.cpp:396-420 | what is sealed opens with any key that traces back to the directory's |
| KeyStorage.KeyStorage.StoreKey | KeyStorage.cpp:570-602 | on success the directory is complete; other directories are never disturbed |
| KeyStorage.KeyStorage.StoreKeyAtomically | KeyStorage.cpp:604-621 | on success the final name is durable and complete; throughout, it can only be what it was or complete; without failures it succeeds exactly if the name was free |
| KeyStorage.KeyStorage.RetrieveKey | KeyStorage.cpp:623-650 | yields what the directory's contents say, and nothing else, so by `KeyDirectories.RetrievedExactly` no key for another secret; no name or other file is touched |
| KeyStorage.KeyStorage.DecryptWithKeystoreKey | KeyStorage.cpp:422-435 | opens exactly what was sealed by the origin of the key used, for the same application id |
| KeyStorage.KeyStorage.DestroyKey | KeyStorage.cpp:678-707 | only this directory is disturbed; without failures it is gone, its ciphertext overwritten and the keys its blob files name deleted, and success is reported also if it was not there |
| KeyStorage.KeyStorage.DeleteKeystoreKey | KeyStorage.cpp:652-660 | deletes the key the file names and no other |
| CeKeyNames.PaddingKeepsOrder | FsCrypt.cpp:183-185 | ten-digit zero padding keeps the numeric order of all 32-bit counters |
| CeKeyNames.CurrentIsOldest | FsCrypt.cpp:173-175 | `current` sorts below every numbered name |
| CeKeyNames.NewNames | FsCrypt.cpp:177-191 | after number m comes number m + 1, and after `current` number 0 |
| CeKeyNames.GetCeKeyNewPath | FsCrypt.cpp:177-191 | the name is fresh and above every existing one; there is none exactly when all numbers are used up |
| CeKeyNames.NoNameLeft | FsCrypt.cpp:177-191 | no name is left exactly when some binding has the last name or one above it |
| CeKeyNames.SortedCeKeyPaths | FsCrypt.cpp:143-171 | exactly the bindings among the entries, newest first |
| CeKeyNames.BindingsByName | FsCrypt.cpp:159-164 | bindings are the names right in the directory that begin with `c` |
| CeChanges.FixatingPreserves | FsCrypt.cpp:193-211 | a key that is there to stay in the binding that is kept stays so at every moment of fixating, and so does every key of every other user |
| CeBindings.CutLeavesUsable | KeyStorage.cpp:678-707 | what a directory holds can be read after any power cut if it can be read before, even while it is being destroyed |
| CeBindings.BoundSurvives | FsCrypt.cpp:193-211 | wherever power is lost, a bound directory is found below its user's directory and yields its key |
| CeChanges.UserKeySurvives | FsCrypt.cpp:193-229 | losing power at any moment of an operation that keeps a key leaves a binding that opens and yields that key |
| CeBindings.KeySurvivesIffHeld | KeyStorage.cpp:604-621 | every power cut leaves a binding from which the key is retrieved if and only if one of its bindings can be read now and cannot be gone or go by another user's name |
| CeChanges.OnlyKeptIsSafe | FsCrypt.cpp:193-201 | once no other binding can be read, every power cut leaves the key if and only if the binding that is kept can be read and is there to stay |
| CeBindings.RollbackYieldsIffSpared | FsCrypt.cpp:839-846 | a rollback leaves a binding from which the key is retrieved if and only if the checkpoint saved one that was whole and needs no Keystore key, or whose Keystore key has not been deleted |
| CeRuns.UnsyncedKeyIsLost | FsCrypt.cpp:213-229 | a run: a key is there to stay, a new binding of it is stored but the last sync fails, the new secret opens that binding and the old one is destroyed, its Keystore key deleted; then a power cut leaves no binding at all |
| CeRuns.UnlockedKeyIsLost | FsCrypt.cpp:213-229 | a run: protecting a key in a checkpoint leaves it to a rollback; unlocking it in the same checkpoint deletes the old Keystore key, and after a rollback no binding yields the key with any authentication |
| CeRuns.OverlookedKeyIsLost | FsCrypt.cpp:806-847 | a run: only a numbered binding is left, the directory is not readable, a random key is stored under the next name and the binding of the user's key destroyed |
| CeProtection.OnlyChosenIsLeft | FsCrypt.cpp:791-850 | once only the new binding is left: a user's key, all bindings that opened being of that one, can be retrieved from some binding if and only if a binding was seen, or it is the new user's or the random key |
| CeBindings.CutSettles | FsCrypt.cpp:143-171 | after a power cut every binding that is found is there to stay |
| CeBindings.BootIsReady | FsCrypt.cpp:143-171 | wherever a run is cut off or rolled back, the next boot can go on from what is left: nothing is pending and every binding is there to stay |
| CeKeys.FsCrypt.GetCeKeyPaths | FsCrypt.cpp:143-171 | all bindings below the directory, newest first, or none if it cannot be read |
| CeKeys.FsCrypt.UsersHaveTheirOwn | FsCrypt.cpp:139-141 | the directory of a user is that of user keys, `/ce/` and the user's number; two users have two directories, and no path is a binding of both |
| CeKeys.FsCrypt.FixateUserCeKey | FsCrypt.cpp:193-211 | all other paths are destroyed, the kept one stays bound throughout; on success it has the canonical name, durably, all bindings left are there to stay, and without failures it is the only one |
| CeKeys.FsCrypt.FindKey | FsCrypt.cpp:218-224 | the newest binding that opens, destruction begun or not |
| CeKeys.FsCrypt.ReadAndFixateUserCeKey | FsCrypt.cpp:213-229 | the key of the newest binding that opens, found without failures exactly when one opens; it still opens, without failures in the only binding left; it is kept at every moment if this user's bindings are there to stay, and every other user's keys are in any case; what was put off for the user is dropped |
| CeKeys.FsCrypt.CeKeyExists | FsCrypt.cpp:375-383 | whether there is a binding; if the directory cannot be read, whether there is the canonical one |
| CeKeys.FsCrypt.CreateCeKey | FsCrypt.cpp:398-414 | a new key is kept in memory and replaces none; on success it is installed |
| CeKeys.FsCrypt.CreateUserKeys | FsCrypt.cpp:627-643 | a user whose key is installed keeps it and nothing changes; else afterwards the user's key waits in memory to be stored, or the user is remembered as ephemeral; nothing on disk changes |
| CeKeys.FsCrypt.UnlockUserKey | FsCrypt.cpp:328-338 | a key that is installed already is left alone; else without failures it works exactly if some binding opens; then that key still opens, in the only binding left, and was kept at every moment if this user's bindings were there to stay; every other user's keys are kept at every moment in any case |
| CeKeys.FsCrypt.BeginCheckpoint | Checkpoint.cpp:281-305 | loses no key, leaves every fixation that was put off in place, and every key that was there to stay would survive a rollback |
| CeKeys.FsCrypt.CommitCheckpoint | Checkpoint.cpp:164-226 | touches no name or file, loses no key, and makes the work that was put off due |
| CeKeys.FsCrypt.KeyToProtect | FsCrypt.cpp:791-830 | the new user's key; else one of a binding that opens without a secret, kept at every moment if this user's bindings are there to stay; or the key is protected with the secret already; only if no binding is seen a random one; every other user's keys are kept at every moment in any case; without failures something is found exactly if it can be |
| CeKeys.FsCrypt.StoreBinding | FsCrypt.cpp:835-837 | the new binding opens and every binding of the user is there to stay, or it fails; no key that is there to stay is lost at any moment |
| CeKeys.FsCrypt.ProtectKey | FsCrypt.cpp:832-850 | afterwards a binding opens with the secret and yields the key, and every binding of the user is there to stay; the others go at once, or later exactly if a checkpoint is active; this key and every other user's keys are kept at every moment; without failures it succeeds exactly if a name is left |
| CeKeys.FsCrypt.SetUserKeyProtection | FsCrypt.cpp:777-856 | success means a binding opens with the secret and yields the chosen key, which is the binding to keep if fixating was put off, and that all the user's bindings are there to stay unless the key was protected with that secret already; if all bindings that open are of one key, that key is kept at every moment when it is the one chosen and this user's bindings were there to stay, and without failures it is left if and only if it is chosen; every other user's keys are kept at every moment in any case; without failures it succeeds exactly if the secret is not empty and the user is ephemeral or something can be protected |
| CeKeys.FsCrypt.DeferredFixateCeKeys | FsCrypt.cpp:858-867 | for every fixation put off, the binding that was chosen is in place at every moment and at the end, and without failures is the canonical and only one; its key and other users' keys are never lost |
| CeKeys.FsCrypt.DoCheckpointCommittedWork | Checkpoint.cpp:86-93 | afterwards no upgraded key and no fixation is left waiting; without failures every upgraded key that waited is the key of its directory, wherever that is now, and every binding that was chosen is the canonical and only one; these are in place at every moment |
| CeKeys.FsCrypt.DestroyUserKey | FsCrypt.cpp:679-708 | nothing of the user is left without failures; every other user keeps, at every moment, all keys that are there to stay in that user's own directory |

## Left out

- Sizes and alignment: block sizes are positive multiples of 512 bytes; entries that pass the size check are whole, block-aligned and inside the device, do not overlap themselves, and entry 0 of a log block restores exactly block 0. The log writer guarantees this; 64-bit wrap-around and the signed overflow of sector counts are not modelled.
- CrashRecovery.AcceptedLogIsRecoverable: assumes that the block 0 recovered in the end does not carry a log magic, as the code does.
- RestoreCheckpoint.RestoreFrom: I/O errors of the device other than reading beyond its end are not modelled.
- RetryFile.ParsesBack: parsing is of plain decimal numbers; the other forms the parser accepts (white space, hexadecimal) are never written by this code.
- RetryFile.CheckpointState.CommitChanges: the boot control service, the mounts and removing the file are inputs that work or fail.
- InPlaceEncryption.InPlaceEncrypter.EncryptPendingData: the progress counters that only feed the log are dropped.
- InPlaceEncryption.InPlaceEncrypter.EncryptInPlace: the f2fs walk, whose block iteration is another library's, is not part of the model.
- KeyUpgrade.StepKeeps: a new blob file appears as a whole; a half-written one only ever lies in a directory under a temporary name, which is destroyed. A checkpoint begins only when the lock is free and no sweep is due: in vold it begins at boot, before the lock is first taken, and a sweep does not outlive the boot in which it became due.
- KeyStorage.KeyStorage.RenameKeyDir: renaming onto an existing name fails; an existing empty directory, which the system call would replace, does not arise.
- KeyStorage.KeyStorage.DestroyKey: overwriting the files, and removing them before the directory goes, each take the encrypted key and its salt in one move; a directory of which other files went first, which cannot be read either, is not a state of the model, nor is overwriting the blob files, whose keys are deleted from Keystore first.
- KeyStorage.KeyStorage.BeginKeystoreOp: of a directory whose destruction was begun and cut off the key is used like any other, but upgrading it is taken to fail, and a left-over upgraded key stays; callers do not use a directory while they are destroying it.
- KeyStorage.KeyStorage.GenerateAppId: the hash of the salt is the salt itself, as only equality matters.
- CeKeys.FsCrypt.SetUserKeyProtection: the random key, and whether the directory can be read when a key on disk is looked for, are inputs; secrets are given as they are, decoding them from hexadecimal is not part of the model.
- CeKeys.FsCrypt.UnlockUserKey: which users' keys are installed is a set; the keys and policies themselves, and failures of removing them, are not part of the model.
- CeKeys.FsCrypt.DestroyUserKey: device-encrypted keys, policies, keyrings and removing the emptied directory are not part of the model.
- Cryptography is reduced to: what one key sealed, that key and its upgrades open; Keystore internals and random numbers are inputs.
- The names of directories are made durable by syncing the directory above; syncing a key directory makes its files durable. The lock that serialises key operations is taken for granted: within a method of `KeyStorage` only the commit of the checkpoint interferes, while `KeyUpgrade` and `KeyDirectories` allow any interleaving.
- Volumes, mounting, the Binder service, command-line tools, idle maintenance, benchmarks and the file system wrappers.
