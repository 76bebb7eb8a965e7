# ZeroOS in Dafny

A model of the parts of ZeroOS whose correctness is a matter of whole runs rather than of single
calls, with proofs in Dafny 4.11. `dafny verify dfyconfig.toml` checks all of it.

**The volume (`libs/zfs-core`).** A volume is a map from paths to bytes. Every operation but the restoring of a
snapshot either leaves that map alone or changes it by exactly its own event, keeps the accounts of blocks exact, leaves
every snapshot readable, gives no inode number twice, and can be cut off after any of its block writes: the device then
holds the old map or the new one. `Disk` is the device as a sequence of atomic block writes, `Banks` the two-bank
checkpoint, `Codec` its payload, `Layout` the bytes of both, `Images` what a device recovers to, `Accounting` which
blocks are in use, `Inodes` which numbers are, `Views` and `History` what the operations do to the whole, `Volumes` the
operations themselves, `Restoring` what going back to a snapshot is worth, `Mounting` the mount.

**Processes and the scheduler (`microkernel/src/process.rs`, `scheduler.rs`).** A state machine in which
every critical section is one step and the steps of any number of CPUs interleave freely. `Kernel` is the
machine, `KernelSafety` its invariant, `KernelSteps`, `KernelExits` and `KernelReaps` the steps, `KernelRuns`
what follows for every run, `KernelFailures` and `KernelRaces` the runs that fail and when they do,
`KernelZombies` and `KernelLeaks` what is left behind. `KernelSpec` says once more what each action does, to processes
by pid and without slots; `KernelRefines` proves that the steps do just that, and `KernelWaits` follows a blocking wait
to its end. `ProcessTables` and `Scheduler` are the data structures in place.

**The IOMMU (`microkernel/src/iommu.rs`).** Three-level tables of words in memory (`Stage2`), written in place
(`Iommu`), kept in agreement with a list of mappings per domain (`Domains`). `Streams` is attaching and
detaching requesters, section by section. `FirstFit` is the address search, which the kernel has in three places.

**Channels, capabilities, text.** `Ipc` (message rings and waiters), `Ledger` (grants and sessions), `Sessions`
(the ledger and the session fields of the processes, section by section), `Grants` (what becomes of the grants of
processes that are gone), `Crc`, `CrcDivision` (the checksum as the remainder it is defined to be) and `Utf8`.

Words of memory, blocks, bitmaps and clocks are natural numbers; where a width matters (64-bit
generations and counters, the 48-bit page field of a table word, 16-bit counts of the payload) it is
written out. Hardware acknowledgements, medium faults, clock ticks, the SHA-256 digest and the exit
status are inputs of the steps that use them.

## What turned out false, and the exact condition

- *A volume that was written can be mounted again.* `write_file` takes any path, the decoder refuses one that
  contains `..`, and mounting decodes both banks. Without a store that failed half way it mounts if and only if
  neither of the last two committed directories has such a path: `Mounting.CleanRun`. Writing `/..` and
  removing it again is enough to lose the volume: `Mounting.RemovedTooLate`.
- *A torn checkpoint never gets in the way.* It does exactly when its checksum happens to match bytes that do not
  decode: `Banks.LoadHeld`. The crash results exclude just that: a mixture of two payloads with the checksum of the
  one it overwrote.
- *The bank of the current generation is never overwritten.* True up to the last generation number, where
  the saturating counter stops and the current bank is written over: `Banks.BankReused`.
- *No two entries have the same inode number.* True, in the live directory, in all snapshots and across mounts, until a
  number is asked for with the 64-bit counter at its end (`Views.OneNumberOneEntry`); from there on two files get the
  same one: `Volumes.NumbersRepeat`.
- *Renaming a directory moves its subtree.* Only if the old path is written with its leading slash, or nothing lies
  below it: `Rename.RenameScope`, with `Rename.UnanchoredExample`.
- *Only empty directories are removed.* True of every path that starts with a slash and ends in one at most
  (`Volumes.RemoveScope`), and of no other (`Volumes.RemoveOrphans`).
- *Going back to a snapshot is safe.* The bitmap that is put back does not know the blocks taken since. What is written
  after it leaves every snapshot readable if and only if no later snapshot has a block that was free then
  (`Restoring.RestoredSnapshots`); `Volumes.RestoreOlder` gets to a state in which one write spoils a snapshot. The
  accounts are exact if and only if, besides, no block that was in use then has lost its snapshots
  (`Restoring.RestoredAccounts`). A crash brings the last commit back whole if and only if none of its blocks was free
  then (`Restoring.RestoredCommit`).
- *A process is runnable if and only if it is queued, about to be, or being dispatched.* A spawn that fails while the
  program is loaded has placed its record as Runnable already, and nobody queues it or takes it out. Every runnable
  process has its ticket if and only if no spawn failed so (`KernelLeaks.RunTicketed`, with `KernelLeaks.FailedSpawn`).
  The record has its slot for good (`KernelLeaks.StuckForGood`); after 256 of them no process is created any more
  (`KernelLeaks.TableLost`, `KernelLeaks.ChokedForGood`).
- *The kernel's assertions cannot fail.* The sleep queue holds 128 entries for 256 processes, and pids have 32 bits
  (checked in debug builds only): `KernelFailures.SleepQueueFills` and `KernelFailures.PidsRunOut` are runs that get
  there. A reap gives the lock back between clearing the slots of zombie children and visiting them, and a slot that
  was given to a new process in between loses the new record (`KernelRaces.ReapRace`); the sweep at its end does the
  same to a current slot (`KernelRaces.SweepRace`). A step keeps the invariant if and only if it is not such a hit
  (`KernelRuns.StepKeeps`). While every slot that a reap under way names is empty, no assertion but the two and no
  stale branch is in reach without a new process (`KernelRaces.NotDoomed`); after a hit one is, unless nothing but the
  lost record knew of the process (`KernelRaces.HitDooms`).
- *No zombie outlives its parent's record.* It does exactly when a record with a zombie child is collected or
  delivered, or one with a zombie grandchild below a zombie child is reaped: `KernelZombies.RunParented`, with
  `KernelZombies.StrandedZombie`.
- *Every bound grant and every session field names a live session.* The process table and the book are read and
  written in separate sections. True at every moment of a run if and only if no session number is written that was
  read before its session ended and was cleared: `Sessions.EveryInterleaving`. `Sessions.SpawnRace` is a run with such
  a write, and it is not put right later: `Sessions.StaleForGood`.
- *Every live session has a live leader.* Lost exactly when the leader's record is taken out without the hook, which
  the delivery of an exit status does, and a reap with its zombie children: `Sessions.ActLed`, with
  `Sessions.DeliveredLeader`.
- *Every grant is one of a process that has a record or a hook to come.* Lost exactly when a record goes without the hook
  while the process has a grant, or a grant is issued after the hook: `Grants.EveryGrant`. Such a grant without a time
  limit has its place in the book until it is revoked (`Grants.OwnerlessForGood`); with sixteen of them nothing is
  issued any more (`Grants.BookLost`, `Grants.CloggedForGood`).
- *A requester has one domain, and its stream table entry leads to it.* The list of domains and the stream table are
  changed in separate sections. True all along if and only if no entry is written over while another domain is listed
  for the requester or about to be (`Streams.EveryInterleaving`), as in `Streams.TwoDomains` and `Streams.LeftInBypass`;
  calls that do not overlap never do that (`Streams.CreateAlone`, `Streams.DestroyAlone`).
- *Destroying a domain gives its table pages back.* Not if the hardware does not acknowledge the
  invalidation; then exactly those pages are lost: `Domains.Manager.DestroyDomain`.
- *Live domains have distinct hardware tags.* Two share one exactly when their ids differ by a multiple of
  65534 (`Domains.VmidShared`), which two live ones can: `Domains.SharedTag`.

## Model

| member | source | states |
|---|---|---|
| `Crc.ComputeCrc32` | libs/zfs-core/src/crc.rs:5-15 | the byte and bit loops compute the checksum |
| `Crc.ShiftsLinear` | libs/zfs-core/src/crc.rs:9-12 | any number of shift steps is linear over exclusive or |
| `Crc.ShiftsBack` | libs/zfs-core/src/crc.rs:9-12 | steps whose result stays small enough can be read backwards, so a step loses nothing |
| `Crc.BurstDetected` | libs/zfs-core/src/crc.rs:5-15 | two inputs of any equal length that agree outside four consecutive bytes have equal checksums if and only if they are equal |
| `CrcDivision.FeedCongruent` | libs/zfs-core/src/crc.rs:6-13 | the register, read from its low end as a polynomial, differs from the message so far, with its first 32 bits inverted, by a multiple of the generator |
| `CrcDivision.MirrorPoly` | libs/zfs-core/src/crc.rs:11 | the constant of the code is the generator of IEEE 802.3, without its highest power and mirrored |
| `CrcDivision.CrcIsRemainder` | libs/zfs-core/src/crc.rs:5-15 | for any data, just one polynomial below the 32nd power differs from the dividend of IEEE 802.3 by a multiple of the generator, and the checksum is that remainder, mirrored and inverted |
| `Utf8.Utf8Decoder.Push` | microkernel/src/display.rs:1047-1101 | one byte: the field updates are the decoder step, and an idle decoder is always fully reset |
| `Utf8.Utf8Decoder.Feed` | microkernel/src/display.rs:1047-1101 | a byte string fed in turn emits what the run of the steps emits |
| `Utf8.StreamRoundTrip` | microkernel/src/display.rs:1041-1101 | the encoding (section 3 of RFC 3629) of any text, fed to a fresh decoder, yields that text and a reset decoder |
| `Utf8.EmittedWasJustFed` | microkernel/src/display.rs:1041-1101 | after any bytes at all, an emitted character other than U+FFFD has its unique shortest encoding as the last bytes fed |
| `Utf8.EveryByteCounts` | microkernel/src/display.rs:1041-1101 | any bytes at all fall into pieces, one for each character shown: its encoding, or bytes that could not become any encoding, for which U+FFFD is shown; at most three are left over, and some exactly when the decoder is not reset |
| `Utf8.EncodeInjective` | microkernel/src/display.rs:1041-1101 | two texts with the same bytes are the same text |
| `Utf8.FromUtf8` | libs/zfs-core/src/metadata.rs:183 | bytes read as text are the encoding of that text |
| `Utf8.FromUtf8Complete` | libs/zfs-core/src/metadata.rs:183 | every encoded text is read back |
| `Allocator.FirstClear` | libs/zfs-core/src/allocator.rs:65-88 | the word scan finds the lowest clear bit of the whole bitmap |
| `Allocator.BlockAllocator.constructor` | libs/zfs-core/src/allocator.rs:33-41 | a new allocator has every block free |
| `Allocator.BlockAllocator.Allocate` | libs/zfs-core/src/allocator.rs:65-88 | takes the lowest block not in use, succeeds exactly when the counter is positive, which is exactly when some block is free; the out-of-bounds exit is dead |
| `Allocator.BlockAllocator.Free` | libs/zfs-core/src/allocator.rs:102-117 | takes the block out of the used set and nothing else; fails exactly when it is out of range or not in use |
| `Allocator.BlockAllocator.MarkUsed` | libs/zfs-core/src/allocator.rs:135-152 | adds the block, or says exactly whether it is out of range or already used |
| `Allocator.BlockAllocator.MarkUsedIdempotent` | libs/zfs-core/src/allocator.rs:154-165 | adds the block if it is in range, and fails exactly otherwise |
| `Allocator.BlockAllocator.IsAllocated` | libs/zfs-core/src/allocator.rs:167-173 | says whether the block is in the used set |
| `Allocator.BlockAllocator.Restore` | libs/zfs-core/src/allocator.rs:188-193 | the allocator is exactly as it was saved |
| `Allocator.SameBitmap` | libs/zfs-core/src/allocator.rs:25-30 | the set of used blocks determines every bitmap word and the counter, so restoring the set restores the allocator |
| `Accounting.AllocateBlocks` | libs/zfs-core/src/volume.rs:270-282 | takes that many distinct unused blocks, or none and leaves the bitmap as it was, exactly when too few are free |
| `Accounting.FreeBlocks` | libs/zfs-core/src/volume.rs:276-278 | takes exactly these blocks out of use |
| `Directory.ComputeNormalize` | libs/zfs-core/src/directory.rs:82-94 | the string loop computes the normal form |
| `Directory.NormalizeIsNormal` | libs/zfs-core/src/directory.rs:82-94 | the result is a stored key, and exactly the stored keys are left alone |
| `Directory.NormalizeStrips` | libs/zfs-core/src/directory.rs:82-94 | the result is the path with a slash in front and without the slashes at its end |
| `Codec.EncodePayload` | libs/zfs-core/src/metadata.rs:121-155 | appends the encoding of the whole directory, or fails exactly when an entry exceeds the 16-bit counts |
| `Codec.Cursor.Take` | libs/zfs-core/src/metadata.rs:229-238 | yields the next bytes and advances past them, or fails at the end without moving |
| `Codec.TakeEntry` | libs/zfs-core/src/metadata.rs:163-219 | reads one entry, with the decoder's checks in the decoder's order |
| `Codec.DecodePayload` | libs/zfs-core/src/metadata.rs:157-223 | the cursor loop decodes as the decoding function does, errors included |
| `Codec.EntryBack` | libs/zfs-core/src/metadata.rs:121-223 | an encoded entry is read back, with what follows it untouched, exactly when its path is acceptable, and is refused otherwise |
| `Codec.RoundTrip` | libs/zfs-core/src/metadata.rs:121-223 | decoding an encoded directory gives it back, with the counters at their minimum, if and only if every path is acceptable; one bad path makes all of it unreadable |
| `Layout.EntryLayout` | libs/zfs-core/src/metadata.rs:130-153 | which number stands at which byte of an encoded entry, low byte first; then the path, the blocks and the signature |
| `Layout.PayloadLayout` | libs/zfs-core/src/metadata.rs:121-155 | the two counters and the number of entries, then every entry once, in ascending order of the paths |
| `Disk.Device.WriteBlock` | libs/zfs-core/src/device.rs:62-74 | a write reaches the medium whole and is logged, or not at all |
| `Disk.Device.ReadBlock` | libs/zfs-core/src/device.rs:49-60 | reads the block, or fails exactly past the end |
| `Banks.HeaderFields` | libs/zfs-core/src/metadata.rs:70-76 | magic, generation, length and checksum are read back from the header block they were written to |
| `Layout.HeaderLayout` | libs/zfs-core/src/metadata.rs:70-76 | the magic bytes, and which number stands at which byte of the header block; zeros behind them |
| `Layout.BankLayout` | libs/zfs-core/src/metadata.rs:13-77 | an odd generation goes to the blocks from 2 on and then to block 1, an even one to those from 34 on and to block 33; 31 blocks of payload fit |
| `Banks.WritePayload` | libs/zfs-core/src/metadata.rs:61-69 | writes the payload blocks in order; a fault leaves a prefix of them |
| `Banks.Store` | libs/zfs-core/src/metadata.rs:36-78 | the writes that reach the device are a prefix of payload blocks then header, complete exactly on success; too large a payload writes nothing |
| `Banks.LoadOneBank` | libs/zfs-core/src/metadata.rs:80-119 | the reading loop loads the bank as the loading function does |
| `Banks.LoadCheckpoint` | libs/zfs-core/src/metadata.rs:25-34 | the choice between the banks, errors included |
| `Banks.LoadHeld` | libs/zfs-core/src/metadata.rs:25-119 | with one bank intact and the other older, loading finds the intact one if and only if the other does not accept undecodable bytes |
| `Banks.LoadHeldBad` | libs/zfs-core/src/metadata.rs:25-34 | an accepted payload that does not decode makes loading fail whatever the other bank holds |
| `Banks.LoadBlank` | libs/zfs-core/src/metadata.rs:80-119 | a device whose banks were never written has no checkpoint |
| `Banks.CrashBeforeHeader` | libs/zfs-core/src/metadata.rs:36-78 | until the header is written, both headers and the whole other bank are untouched |
| `Banks.CrashDuringStore` | libs/zfs-core/src/metadata.rs:36-78 | stopping after any number of a store's writes leaves the old checkpoint held, or the new one if the header was reached |
| `Banks.NowStale` | libs/zfs-core/src/metadata.rs:25-78 | once a newer generation is in place, the bank it replaced is only an older copy |
| `Banks.BankReused` | libs/zfs-core/src/metadata.rs:43-48 | the next store goes to the current bank exactly at the last 64-bit generation |
| `Files.ContentStored` | libs/zfs-core/src/volume.rs:185-202 | blocks holding the chunks of a byte string spell that string |
| `Files.ContentBlock` | libs/zfs-core/src/volume.rs:207-241 | block `i` holds the file's bytes from `i` times the block size on |
| `Files.TreeFrame` | libs/zfs-core/src/volume.rs:185-202 | the tree depends on the data blocks of its entries only |
| `Rename.NewKeyInjective` | libs/zfs-core/src/volume.rs:463-486 | within the subtree the rewriting of keys is one-to-one |
| `Rename.MovedExactly` | libs/zfs-core/src/volume.rs:443-503 | the rewritten map has the subtree under the new root, everything else untouched, nothing lost or merged |
| `Rename.Collect` | libs/zfs-core/src/volume.rs:463-486 | collects a move for exactly the keys that change, and fails exactly on a clash with an existing key |
| `Rename.RemoveAll` | libs/zfs-core/src/volume.rs:487-489 | takes out the sources |
| `Rename.InsertAll` | libs/zfs-core/src/volume.rs:490-492 | puts in the targets |
| `Rename.MovedForward` | libs/zfs-core/src/volume.rs:487-492 | removing the sources and inserting the targets rewrites every key and keeps every entry |
| `Rename.MovedBack` | libs/zfs-core/src/volume.rs:493-500 | undoing it restores the directory exactly |
| `Rename.RenameScope` | libs/zfs-core/src/volume.rs:443-503 | a directory rename moves exactly the subtree, one-to-one, if and only if the old path starts at the root or nothing lies below it |
| `Rename.UnanchoredExample` | libs/zfs-core/src/volume.rs:443-503 | renaming `a` instead of `/a` leaves `/a/b` behind |
| `Accounting.SnapshotManager.Create` | libs/zfs-core/src/snapshot.rs:38-55 | appends the snapshot under an id that no other has |
| `Accounting.SnapshotManager.References` | libs/zfs-core/src/snapshot.rs:78-83 | true exactly for the blocks that some snapshot's files use |
| `Accounting.SnapshotManager.Remove` | libs/zfs-core/src/snapshot.rs:85-88 | takes out the one snapshot with that id, if there is one |
| `Accounting.FreeUnreferenced` | libs/zfs-core/src/volume.rs:337-344 | frees exactly those of the blocks that no snapshot refers to |
| `Accounting.GatherAll` | libs/zfs-core/src/volume.rs:540-550 | gathers the blocks of the live files and of the snapshots that remain |
| `Accounting.FreeDirectory` | libs/zfs-core/src/volume.rs:551-562 | frees exactly those blocks of the deleted snapshot that are not among them |
| `Accounting.AccountsInsert` | libs/zfs-core/src/volume.rs:251-346 | replacing a file keeps: used = reserved + live + snapshot-referenced, and no two live files share a block |
| `Accounting.AccountsRemove` | libs/zfs-core/src/volume.rs:348-370 | so does removing one |
| `Accounting.AccountsRekey` | libs/zfs-core/src/volume.rs:443-503 | so does rewriting keys |
| `Accounting.AccountsSnapshot` | libs/zfs-core/src/volume.rs:509-522 | so does taking a snapshot, with no block changing hands |
| `Accounting.AccountsDelete` | libs/zfs-core/src/volume.rs:535-564 | so does deleting one |
| `Images.RealFormat` | libs/zfs-core/src/metadata.rs:121-223 | the real encoder and decoder meet the law that the crash proofs are built on |
| `Images.OtherBank` | libs/zfs-core/src/metadata.rs:25-119 | unless a checksum collides, the other bank accepts undecodable bytes exactly when the commit before has a path with `..` and is still whole |
| `Images.Recovers` | libs/zfs-core/src/metadata.rs:25-119 | a device that holds an image over the one before it loads if and only if no path of it contains `..`, and none of the one before does or that one has been overwritten; it loads that very image |
| `Images.TwoDotsUnloadable` | libs/zfs-core/src/metadata.rs:183-186 | one committed file `/..` and the volume no longer loads |
| `Images.StoreStep` | libs/zfs-core/src/metadata.rs:36-78 | after any part of the checkpoint writes the old image over the one before it and all its file bytes are there; or, if the writes are complete, the new ones over the old image, whole |
| `Images.OperationCrashSafe` | libs/zfs-core/src/volume.rs:251-370 | data writes into free blocks, then checkpoint writes: old tree or new tree at every point, new exactly at the end, with the old image whole behind it |
| `Images.CrashRecovery` | libs/zfs-core/src/volume.rs:251-370 | after any number of an operation's writes the device holds the image before or after; unless a checksum collides it loads if and only if that image and the one behind it are free of `..` or the one behind it is torn, and then reads as exactly the old tree or exactly the new one |
| `Images.FirstStore` | libs/zfs-core/src/volume.rs:140-144 | until the very first header is written the device stays blank |
| `History.LastWriteWins` | libs/zfs-core/src/volume.rs:185-346 | over any history, a file holds what was last written to its path, whatever happened to other paths since |
| `Views.FailedPlacing` | libs/zfs-core/src/volume.rs:270-296 | an operation that fails while placing data leaves directory and bitmap exactly as they were, and is crash safe |
| `Views.FailedCommit` | libs/zfs-core/src/volume.rs:320-330 | so does one whose checkpoint fails, however far it got |
| `Views.Committed` | libs/zfs-core/src/volume.rs:251-370 | a committed operation changes the tree by its event and nothing else, keeps the accounts and all snapshots, and is crash safe all along |
| `Views.TookSnapshot` | libs/zfs-core/src/volume.rs:509-522 | a new snapshot reads as the live tree did when it was taken, its bitmap has exactly the blocks of that moment in use, and the volume stays consistent |
| `Views.DroppedSnapshot` | libs/zfs-core/src/volume.rs:535-564 | the other snapshots and the live tree still read as before |
| `Views.HarmlessTrees` | libs/zfs-core/src/volume.rs:251-370 | no operation rewrites a block of the live directory or of a snapshot |
| `Inodes.NumberedEntered` | libs/zfs-core/src/volume.rs:297-318 | an entry with the next number keeps every number with one entry and below the counter, in the live directory and all snapshots |
| `Inodes.NumberedRemoved` | libs/zfs-core/src/volume.rs:348-361 | so does removing an entry |
| `Inodes.NumberedRekeyed` | libs/zfs-core/src/volume.rs:443-503 | so does rewriting keys |
| `Views.OneNumberOneEntry` | libs/zfs-core/src/volume.rs:297-406 | any two paths, in the live directory or in any snapshots: the same number means the same entry, in one directory the same path, and no number reaches the counter; until the counter is spent |
| `Views.SomeLaw` | libs/zfs-core/src/volume.rs:51-370 | there is a law that means consistency, so the results that carry one are about something |
| `Volumes.PlaceData` | libs/zfs-core/src/volume.rs:270-296 | takes unused blocks and writes the data there, or gives every block back |
| `Volumes.InsertAndPersist` | libs/zfs-core/src/volume.rs:315-330 | enters the file and commits, or puts the previous entry back |
| `Volumes.RemoveAndPersist` | libs/zfs-core/src/volume.rs:357-361 | removes the entry and commits, or puts it back |
| `Volumes.MoveAllAndPersist` | libs/zfs-core/src/volume.rs:487-501 | rewrites the keys of a subtree and commits, or rewrites them back |
| `Volumes.Volume.WriteFile` | libs/zfs-core/src/volume.rs:251-346 | the tree becomes old tree with this path set to these bytes, or stays as it was; the entry has the next inode number, this size and digest, the new time, mode 0644 and one link, and the other entries are untouched; both counters go up by one, and a failure gives the number back; which error when; the file is in blocks that were not in use; crash safe; accounts and snapshots kept |
| `Volumes.Volume.RemoveFile` | libs/zfs-core/src/volume.rs:348-370 | the same for removal: exactly this entry goes, and the counters stay |
| `Volumes.Volume.CreateDir` | libs/zfs-core/src/volume.rs:376-406 | the same for a new directory, with the exact error conditions: the next inode number, mode 0755, no blocks |
| `Volumes.NumbersRepeat` | libs/zfs-core/src/volume.rs:297-298 | with the counter at its end two files get the same number |
| `Volumes.Volume.RemoveDir` | libs/zfs-core/src/volume.rs:408-438 | the same for removing a directory; refused exactly when a key starts with the path as given and a slash |
| `Volumes.RemoveScope` | libs/zfs-core/src/volume.rs:408-438 | a path that starts with a slash and ends in one at most is refused whenever something lies below it |
| `Volumes.RemoveOrphans` | libs/zfs-core/src/volume.rs:408-438 | for every other path there is a directory that passes the guard with an entry below it, which is left behind |
| `Volumes.Volume.RenamePath` | libs/zfs-core/src/volume.rs:443-503 | the same for a rename, of one entry or of a subtree in one commit: every entry is where the renaming puts it, the counters stay, and the exact error conditions; a failure leaves the directory exactly as it was |
| `Volumes.Volume.CreateSnapshot` | libs/zfs-core/src/volume.rs:509-522 | remembers the current tree, under a new id, the given name and the new time |
| `Volumes.Volume.RestoreSnapshot` | libs/zfs-core/src/volume.rs:528-533 | puts back the directory and the blocks in use of that snapshot and changes nothing else; fails exactly when there is none |
| `Volumes.RestoreOlder` | libs/zfs-core/src/volume.rs:509-533 | a snapshot, a write, a snapshot, and back to the first: one write into a block that now counts as free makes a snapshot read differently |
| `Restoring.OutOfReachIff` | libs/zfs-core/src/volume.rs:270-296 | writes into blocks not in use leave everything in a directory as it is if and only if all its blocks are in use |
| `Restoring.RestoredReads` | libs/zfs-core/src/volume.rs:528-533 | right after a restore the tree is that of the snapshot, and every snapshot reads as it did |
| `Restoring.RestoredNumbers` | libs/zfs-core/src/volume.rs:528-533 | going back to a snapshot does not bring an inode number into use again |
| `Restoring.RestoredSnapshots` | libs/zfs-core/src/volume.rs:528-533 | later writes leave every snapshot as it is if and only if no later snapshot has a block that was free when the restored one was taken |
| `Restoring.RestoredCommit` | libs/zfs-core/src/volume.rs:528-533 | the committed directory stays the one from before, and later writes leave it whole if and only if none of its blocks was free then |
| `Restoring.RestoredAccounts` | libs/zfs-core/src/volume.rs:528-533 | the accounts are exact if and only if no later snapshot has a block that was free then and every block in use then still belongs to a snapshot |
| `Restoring.RestoredNewest` | libs/zfs-core/src/volume.rs:528-533 | going back to the newest snapshot, with none taken or deleted since and whatever was written: exact accounts with the bitmap of the snapshot, the tree of that moment, every snapshot readable |
| `Volumes.Volume.DeleteSnapshot` | libs/zfs-core/src/volume.rs:535-564 | forgets exactly that snapshot; fails exactly when there is none |
| `Volumes.Volume.ReadFile` | libs/zfs-core/src/volume.rs:185-202 | the bytes of the path in the tree, or exactly why there are none |
| `Volumes.Volume.ReadFileAt` | libs/zfs-core/src/volume.rs:207-241 | the matching slice of the same bytes, cut at the end of the file |
| `Volumes.ReadRange` | libs/zfs-core/src/volume.rs:207-241 | reads any range from the blocks it lies in and no others |
| `Mounting.MarkReserved` | libs/zfs-core/src/volume.rs:79-96 | the blocks in use are exactly the reserved ones that exist |
| `Mounting.RestoreEntries` | libs/zfs-core/src/volume.rs:98-122 | re-enters every entry and adds exactly their blocks, or fails exactly when one lies outside the data area |
| `Mounting.FirstCheckpoint` | libs/zfs-core/src/volume.rs:140-144 | a blank device stays blank until the first checkpoint is complete |
| `Mounting.Mount` | libs/zfs-core/src/volume.rs:51-146 | a device holding a loadable image mounts as that very directory with its counters, with used blocks exactly reserved plus live and nothing written; a blank one becomes an empty volume with counters 2 and 1; a load error is passed on |
| `Mounting.RemountNumbered` | libs/zfs-core/src/volume.rs:51-146 | what is committed has the inode counter of the volume, above every number in it, so no number is given twice across mounts |
| `Mounting.CrashThenRemount` | libs/zfs-core/src/volume.rs:51-370 | any operation stopped after any number of its block writes: the device holds the image from before or from after with exactly the bytes of that moment, and unless a checksum collides it mounts as it if and only if neither it nor the one behind it has a path with `..`, or the one behind it is torn |
| `Mounting.Remounts` | libs/zfs-core/src/volume.rs:51-146 | a volume whose last two commits are whole mounts again if and only if neither has a path with `..` |
| `Mounting.CleanRun` | libs/zfs-core/src/volume.rs:51-564 | so does the end of every run in which no store failed half way |
| `Mounting.RemovedTooLate` | libs/zfs-core/src/volume.rs:251-370 | after `/..` was written and removed, both completely, no live path contains `..` and the volume does not load |
| `Processes.FindIs` | microkernel/src/process.rs:729-736 | with distinct pids the scan finds the record of the pid |
| `Processes.NextPidRaw` | microkernel/src/process.rs:321-330 | pids strictly increase, so none repeats, and reserved sequence numbers are skipped |
| `Processes.AllocSlot` | microkernel/src/process.rs:368-380 | fails exactly when all 256 slots are taken |
| `Processes.WaitScan` | microkernel/src/process.rs:1246-1276 | a matching zombie is always preferred to blocking, and ECHILD means that no matching child is left |
| `Processes.LiveParent` | microkernel/src/process.rs:1502-1516 | the parent slot is that of a parent which is there and not itself a zombie |
| `Processes.ClearedExactly` | microkernel/src/process.rs:1346-1356 | the slots that a section of a reap goes on to visit are exactly those of the zombie children |
| `ProcessTables.ProcessTable.Claim` | microkernel/src/process.rs:759-783 | the table in place does the claim step, with the assertion that would fail |
| `ProcessTables.ProcessTable.Release` | microkernel/src/process.rs:788-805 | the same for releasing a running process |
| `ProcessTables.ProcessTable.ReleaseForExit` | microkernel/src/process.rs:810-824 | the same for giving up ownership before exit |
| `ProcessTables.ProcessTable.RequestWakeUp` | microkernel/src/process.rs:848-881 | the same for a wake: enqueue, latch or ignore |
| `ProcessTables.ProcessTable.StartBlock` | microkernel/src/process.rs:885-901 | the same for the block intent |
| `ProcessTables.ProcessTable.EndBlock` | microkernel/src/process.rs:913-939 | the same for publishing the block, or requeueing on a latched wake |
| `ProcessTables.ProcessTable.AllocateSlot` | microkernel/src/process.rs:368-380 | the same for a slot: first hole, else grow, owner reset |
| `ProcessTables.ProcessTable.Scan` | microkernel/src/process.rs:1246-1276 | the scanning loop decides as the decision function does |
| `ProcessTables.ProcessTable.Orphan` | microkernel/src/process.rs:1346-1372 | the loop over the children: zombies go and are listed, live ones are adopted by init, others are untouched |
| `ProcessTables.ProcessTable.Reap` | microkernel/src/process.rs:1336-1376 | one locked section of a reap: an empty slot is skipped; else the record goes, zombie children go with it and their slots are returned in order, live ones are adopted |
| `KernelSteps.PopKeeps` | microkernel/src/scheduler.rs:180-209 | taking a pid off the queues keeps the invariant |
| `KernelSteps.ClaimKeeps` | microkernel/src/process.rs:759-783 | under the invariant a popped pid is always claimable: neither the stale-entry branch nor the owner assertion is reached |
| `KernelSteps.ReleaseKeeps` | microkernel/src/scheduler.rs:450-470 | yielding keeps the invariant and fails no assertion |
| `KernelSteps.BeginBlockKeeps` | microkernel/src/scheduler.rs:612-637 | so does the block intent |
| `KernelSteps.FinishBlockKeeps` | microkernel/src/process.rs:913-939 | so does publishing the block; the invalid-handoff panic is dead |
| `KernelSteps.RegisterSleepKeeps` | microkernel/src/scheduler.rs:586-610 | registering a sleeper keeps the invariant; its assertion fails exactly with 128 sleepers |
| `KernelSteps.WakeKeeps` | microkernel/src/process.rs:848-881 | a wake that lands keeps the invariant and is never dropped |
| `KernelSteps.QueueRoom` | microkernel/src/scheduler.rs:335-346 | every level has room for a pid about to be pushed: the run-queue-full assertion is unreachable |
| `KernelExits.CreateKeeps` | microkernel/src/process.rs:334-499 | creating a process keeps the invariant; its pid is new; the pid assertion fails exactly at the end of the pids |
| `KernelExits.SpawnFailsKeeps` | microkernel/src/process.rs:582-619 | a spawn that fails after its record was placed keeps the invariant, which counts the record as runnable without a ticket |
| `KernelExits.WaitKeeps` | microkernel/src/process.rs:1809-1883 | a wait keeps the invariant |
| `KernelExits.WaitExactly` | microkernel/src/process.rs:1809-1883 | by what is in the table: with a matching zombie, one is gone and its status is the last receipt; with a matching child that is alive and no nohang, the wait is registered for what was asked and the CPU goes on to block; otherwise nothing changes |
| `KernelExits.DieKeeps` | microkernel/src/process.rs:1475-1626 | an exit becomes a zombie, or takes the registration of a parent that waits for just this, or goes through the first section of its reap |
| `KernelExits.DeliverKeeps` | microkernel/src/process.rs:1592-1615 | the delivery consumes the zombie and wakes the one parent |
| `KernelExits.ReapTable` | microkernel/src/process.rs:1336-1376 | after a section of a reap no record names the dead process as its parent, unless that is init itself |
| `KernelReaps.CascadeKeeps` | microkernel/src/process.rs:1332-1341 | a later section keeps the invariant if and only if the slot is empty, or holds a zombie that nobody is left to wait for |
| `KernelReaps.CascadeLoses` | microkernel/src/process.rs:1332-1341 | otherwise a live process or an uncollected status is lost at once |
| `KernelReaps.SweepKeeps` | microkernel/src/scheduler.rs:410-418 | clearing the CPU entries that name the reaped slot keeps the invariant if and only if the entry looked at does not |
| `KernelReaps.DieReaps` | microkernel/src/process.rs:1336-1376 | the first section of a reap: which records go, which change, and that the slots of the zombie children are to be visited, from low to high |
| `KernelReaps.CascadeExactly` | microkernel/src/process.rs:1332-1376 | the same for a later section, which visits the last slot of the list |
| `KernelReaps.SweepExactly` | microkernel/src/scheduler.rs:410-418 | CPU after CPU, an entry that names the slot is cleared and nothing else; then the CPU is free |
| `KernelRefines.StepFaithful` | microkernel/src/process.rs:334-1883 | refinement: under the invariant every step of every CPU, but the later sections of a reap, applies exactly when the specification by pid says so, and changes the processes, the CPUs, the queues, the registrations, the wakes in flight and the receipts exactly as it says |
| `KernelWaits.Plays` | microkernel/src/process.rs:334-1883 | what a script of actions does by that specification, whatever the choices it leaves, the kernel does |
| `KernelWaits.WaitCompletes` | microkernel/src/process.rs:1475-1883 | from any state of the invariant: the parent waits and blocks, the child exits, the wake is carried out; then the child is gone, its status is the last receipt of the parent, the parent is at the end of its queue, and nothing else has changed |
| `KernelRuns.StepKeeps` | microkernel/src/process.rs:759-939 | a step of any CPU keeps the invariant, takes no stale branch and fails no assertion but the two whose guards are stated, if and only if it is not a late section of a reap that hits a slot in use again |
| `KernelRuns.BootInv` | microkernel/src/scheduler.rs:150-156 | the boot state satisfies it |
| `KernelRuns.RunKeeps` | microkernel/src/scheduler.rs:157-250 | so does every state that any interleaving of any number of CPUs without a hit reaches, and such a run ends in nothing but the two excused assertions |
| `KernelRuns.EveryRun` | microkernel/src/process.rs:759-939 | from boot, on any number of CPUs and after any steps in any order with no such hit: no assertion but the two failed, and blocked processes are named once, runnable ones ticketed once unless a failed spawn left them, current slots owned and Running, statuses delivered once to a wait that matches and none lost, no live process without its record |
| `KernelRuns.BlockedNamedOnce` | microkernel/src/process.rs:848-939 | in every reachable state a blocked process is named by exactly one registration (channel, futex, sleep, wait) or exactly one wake in flight |
| `KernelRuns.RunnableTicket` | microkernel/src/scheduler.rs:157-209 | a pid has at most one scheduling ticket, and has one if and only if its process is Runnable and is not what a failed spawn left: no pid is queued twice |
| `KernelRuns.OwnershipExclusive` | microkernel/src/process.rs:759-939 | a CPU's current slot is owned by it and Running; slots that are not Running have no owner |
| `KernelRuns.DeliveredOnce` | microkernel/src/process.rs:1475-1626 | each exit status is delivered at most once, to the parent the child had, as it exited, and to a wait that matches the child |
| `KernelRuns.NoStatusLost` | microkernel/src/process.rs:1475-1626 | each exit status was delivered, or waits as a zombie, or its parent has no record any more; and a process that was created and has not exited has its record |
| `KernelRuns.NoMissedExit` | microkernel/src/process.rs:1809-1883 | a registered wait never coexists with a zombie child that it matches |
| `KernelRuns.WakeLands` | microkernel/src/process.rs:848-881 | a wake in flight makes its process runnable or latches on the CPU that is blocking it |
| `KernelRuns.LatchStays` | microkernel/src/process.rs:885-939 | a latched wake survives every step of every CPU that is not a hit, until its own CPU finishes blocking |
| `KernelRuns.LatchRuns` | microkernel/src/process.rs:913-939 | and then the process becomes Runnable |
| `KernelRuns.LatchOverRun` | microkernel/src/process.rs:848-939 | the same over whole clean runs: no wake between registration and published block is lost |
| `KernelFailures.SleepQueueFills` | microkernel/src/scheduler.rs:586-610 | a run from boot on one CPU in which 128 processes go to sleep and the assertion fails for the next |
| `KernelFailures.PidsRunOut` | microkernel/src/process.rs:334-345 | from any state, creating processes long enough fails the pid assertion |
| `KernelRaces.DesertedDooms` | microkernel/src/scheduler.rs:440-470 | a CPU whose process has lost its record comes to a stale branch or a failed assertion, whatever it was doing |
| `KernelRaces.FreeDooms` | microkernel/src/scheduler.rs:157-250 | so does a CPU that keeps dispatching while a pid without a record is queued |
| `KernelRaces.ReapingDooms` | microkernel/src/process.rs:1324-1428 | and the reaping CPU itself, once it is through with the reap |
| `KernelRaces.HitDooms` | microkernel/src/process.rs:1324-1428 | after a hit, a stale branch or a failed assertion is reached without any process being created, unless the lost process was waiting for a child, was a zombie not being delivered, or was what a failed spawn left |
| `KernelRaces.NotDoomed` | microkernel/src/process.rs:1324-1428 | under the invariant, with every slot that a reap under way names empty, none is reached without a process being created |
| `KernelRaces.ReapRace` | microkernel/src/process.rs:1324-1428 | a run from boot on two CPUs in which a reap takes the record of a new process and the assertion of its next block fails |
| `KernelRaces.SweepRace` | microkernel/src/scheduler.rs:410-418 | one in which the sweep clears the current slot of a CPU that runs a new process and its next yield fails |
| `KernelZombies.TakenParented` | microkernel/src/process.rs:1836-1843 | taking one record leaves every zombie with a parent that has a record if and only if it had no zombie child |
| `KernelZombies.ReapedParented` | microkernel/src/process.rs:1336-1376 | a section of a reap does if and only if no zombie child of the dead process has a zombie child itself |
| `KernelZombies.StepParented` | microkernel/src/process.rs:1324-1883 | a step of the kernel does if and only if it is neither of these |
| `KernelZombies.RunParented` | microkernel/src/process.rs:1324-1883 | a clean run does all along if and only if it has no such step |
| `KernelZombies.StrandedZombie` | microkernel/src/process.rs:1836-1843 | a run from boot on three CPUs after which a zombie is left whose parent has no record |
| `KernelLeaks.StuckAlone` | microkernel/src/process.rs:582-619 | the record of a failed spawn is not queued or about to be, not registered anywhere, and owned by no CPU |
| `KernelLeaks.StuckForGood` | microkernel/src/process.rs:582-619 | over every clean run it stays as it is, in its slot |
| `KernelLeaks.TicketedIff` | microkernel/src/process.rs:582-619 | every runnable process has its ticket if and only if no failed spawn left one |
| `KernelLeaks.RunTicketed` | microkernel/src/process.rs:519-619 | at the end of a clean run from boot every runnable process has its ticket if and only if no spawn failed after its record was placed |
| `KernelLeaks.FailedSpawn` | microkernel/src/process.rs:582-619 | a run from boot after which a process is Runnable and has no ticket |
| `KernelLeaks.TableLost` | microkernel/src/process.rs:368-380 | a run from boot in which 256 spawns fail and take every slot |
| `KernelLeaks.ChokedForGood` | microkernel/src/process.rs:368-380 | then no process is created any more, whatever clean steps follow |
| `Scheduler.RunQueue.Push` | microkernel/src/scheduler.rs:335-346 | the ring gains the pid at its end |
| `Scheduler.RunQueue.Pop` | microkernel/src/scheduler.rs:348-357 | the ring loses its first pid, or is empty |
| `Scheduler.Mlfq.PushAt` | microkernel/src/scheduler.rs:378-380 | the pid goes to the end of its level, the last one if the level is too high; other levels are untouched |
| `Scheduler.Mlfq.Pop` | microkernel/src/scheduler.rs:382-390 | the first pid of the highest non-empty level |
| `Scheduler.SleepQueue.Insert` | microkernel/src/scheduler.rs:586-610 | after all sleepers due no later and before all others; the queue stays sorted |
| `Scheduler.SleepQueue.Tick` | microkernel/src/scheduler.rs:495-519 | takes out everyone who is due and no one else |
| `Scheduler.FutexTable.Enter` | microkernel/src/process.rs:1652-1680 | a waiter is entered exactly when the value is still the expected one and there is room |
| `Scheduler.FutexTable.Wake` | microkernel/src/process.rs:1694-1715 | the in-place loop wakes and keeps exactly the specified waiters |
| `Scheduler.FutexTable.Detach` | microkernel/src/process.rs:1717-1725 | drops every entry of the process and no other |
| `Scheduler.WokenOrLeft` | microkernel/src/process.rs:1694-1715 | each waiter is woken or left, never both, never neither |
| `Scheduler.WokenEnough` | microkernel/src/process.rs:1694-1715 | at most `max` are woken, and fewer only if nobody is left to wake |
| `Scheduler.WokenFirst` | microkernel/src/process.rs:1694-1715 | first come, first woken: up to some point all waiters on the address are woken, in order, and none after it |
| `Ipc.FirstFor` | microkernel/src/ipc.rs:384-411 | the first envelope the caller may take, or none exists |
| `Ipc.MessageQueue.Push` | microkernel/src/ipc.rs:367-375 | the ring gains the envelope at its end, or refuses exactly at capacity |
| `Ipc.MessageQueue.PopFor` | microkernel/src/ipc.rs:384-411 | the ring loses the first eligible envelope and keeps the others in order |
| `Ipc.Port.constructor` | microkernel/src/ipc.rs:273-282 | empty, with the given owner and masks, and a capacity of at least 1 and at most 16 |
| `Ipc.SendExactly` | microkernel/src/ipc.rs:125-148 | a send fails exactly at capacity; else the envelope goes to the end, and one waiter is woken: the addressee if it waits, or the one in the lowest place if there is no addressee |
| `Ipc.ReceiveExactly` | microkernel/src/ipc.rs:165-192 | the oldest envelope for nobody in particular or for the caller is taken; with none the caller is registered once, which fails exactly when four others are |
| `Ipc.Port.SendMessage` | microkernel/src/ipc.rs:125-148 | refused exactly for a caller who is not the owner of an owned channel, or whose capabilities have no bit of a mask that is not empty; else the channel in place does the send step |
| `Ipc.Port.Receive` | microkernel/src/ipc.rs:151-161 | the same refusals; else takes the first eligible envelope and leaves the waiters alone |
| `Ipc.Port.ReceiveOrWait` | microkernel/src/ipc.rs:165-192 | the same refusals; else the channel in place takes an envelope or registers the caller, in one section |
| `Ipc.SendKeeps` | microkernel/src/ipc.rs:125-148 | no registered waiter has an envelope addressed to it in the queue, after a send too |
| `Ipc.ReceiveKeeps` | microkernel/src/ipc.rs:165-192 | nor after a receive; and an envelope goes only to its target |
| `Ipc.EveryUse` | microkernel/src/ipc.rs:125-192 | from a new channel, over any mix of targeted and untargeted sends and receives: the accepted envelopes are exactly the queued and the taken ones, each was taken by someone it was for, and no waiter has one waiting |
| `Ipc.AlwaysServed` | microkernel/src/ipc.rs:125-192 | over any run of untargeted sends, waiting and non-waiting receives: while anyone waits, the queued messages are no more than the woken receivers that have yet to run |
| `Ipc.NewServed` | microkernel/src/ipc.rs:107-119 | and so it is from the creation of a channel on |
| `Ledger.GrantBook.IssueGrant` | microkernel/src/security.rs:142-173 | the book in place does the issue step |
| `Ledger.GrantBook.RevokeToken` | microkernel/src/security.rs:177-181 | drops the token's grant, and says whether there was one |
| `Ledger.GrantBook.EffectiveCaps` | microkernel/src/security.rs:184-192 | the loop over the grants computes the effective capabilities, which are in `Ledger.EffectiveExactly` |
| `Ledger.GrantBook.BeginSession` | microkernel/src/security.rs:200-237 | the book in place does the session step |
| `Ledger.GrantBook.ProcessGone` | microkernel/src/security.rs:250-256 | the book in place does the departure step |
| `Ledger.EffectiveExactly` | microkernel/src/security.rs:184-192 | a capability is effective if and only if it is in the base or in a grant of this process that has not expired and is unbound or bound to this session |
| `Ledger.GoneLosesAll` | microkernel/src/security.rs:240-256 | a process that is gone keeps its base only, and a session that ended adds nothing for anyone |
| `Ledger.IssueKeeps` | microkernel/src/security.rs:142-173 | issuing keeps tokens distinct and the issuer bit out; the new grant is bound to a live session exactly when the session it is issued for is alive |
| `Ledger.IssueExactly` | microkernel/src/security.rs:142-173 | refused exactly if nothing or the issuer bit is asked for, or 16 grants are in force; else the book has the grants in force and the new one, for this process, session and capabilities, a login token exactly with the session bit, good for `ttl` milliseconds or for ever |
| `Ledger.RevokeExactly` | microkernel/src/security.rs:177-181 | exactly the grants with this token go |
| `Ledger.BeginKeeps` | microkernel/src/security.rs:200-237 | a login takes its token out for good, ends exactly the session the caller led, and leaves one session per leader; a refused one changes nothing |
| `Ledger.BeginWhen` | microkernel/src/security.rs:200-237 | a login succeeds exactly with a token that is the caller's, is for logging in, is in time, and room for a session or one of its own to replace; which refusal exactly when |
| `Ledger.BeginLeaves` | microkernel/src/security.rs:200-248 | it costs the token and what was bound to the session the caller led, and no other grant |
| `Ledger.GoneKeeps` | microkernel/src/security.rs:240-256 | a departure ends exactly the sessions that the process led |
| `Ledger.GoneLeaves` | microkernel/src/security.rs:240-256 | a departure costs the grants of the process and what was bound to the session it led, and no other grant |
| `Sessions.ActSound` | microkernel/src/security.rs:299-330 | after every section of every call: one session per token ever, one live session per leader, no issuer bit granted, session numbers and pids not used again |
| `Sessions.LogInAlone` | microkernel/src/security.rs:314-321 | a login that is not interrupted: the caller is in the new session, the members of the one it led are in none, and everyone else stays |
| `Sessions.RemoveAlone` | microkernel/src/security.rs:325-330 | the same for a departure |
| `Sessions.GrantAlone` | microkernel/src/security.rs:299-306 | the same for a grant, which is bound to the session that the target is in |
| `Sessions.ChildAlone` | microkernel/src/process.rs:2505-2512 | the same for a fork or a spawn: the child is in the session of its parent |
| `Sessions.ActSettled` | microkernel/src/security.rs:299-330 | a section leaves every bound grant and every field that is not about to be rewritten naming a live session, if and only if it is not a stale write |
| `Sessions.EveryInterleaving` | microkernel/src/security.rs:299-330 | over every interleaving from an empty book: the first always holds, and the second all along if and only if no write was stale |
| `Sessions.SettledAtRest` | microkernel/src/security.rs:299-330 | with no session being ended or entered, every field of a settled system names a live session or none |
| `Sessions.StaleForGood` | microkernel/src/process.rs:700-727 | a field that names an ended session stays so until the process goes or gets another session |
| `Sessions.SpawnRace` | microkernel/src/syscalls.rs:448-450 | a run in which a leader goes between a spawner's read and its write: the child is in an ended session with nothing pending |
| `Sessions.ActLed` | microkernel/src/security.rs:325-330 | every live session's leader has a record or a hook to come, unless and exactly when a leader's record goes without the hook |
| `Sessions.LeaderlessForGood` | microkernel/src/security.rs:250-256 | a session whose leader went without the hook is never ended |
| `Sessions.DeliveredLeader` | microkernel/src/process.rs:1592-1615 | a run that gets there |
| `Grants.ActAttached` | microkernel/src/security.rs:299-330 | a section leaves every grant with a process that has a record or a hook to come, if and only if it does not take a record without the hook from a process with a grant, or issue one after the hook |
| `Grants.EveryGrant` | microkernel/src/security.rs:299-330 | the same over every interleaving from an empty book |
| `Grants.OwnerlessForGood` | microkernel/src/security.rs:133-192 | a grant of a process that is gone, with no time limit and no session, stays until its token is revoked |
| `Grants.CloggedRefuses` | microkernel/src/security.rs:142-173 | with sixteen of them every request to issue is refused and changes nothing |
| `Grants.CloggedForGood` | microkernel/src/security.rs:133-256 | and stays so over every run without a revocation |
| `Grants.BookLost` | microkernel/src/process.rs:1592-1615 | a run that gets there |
| `Ledger.IssuerNotGained` | microkernel/src/security.rs:142-192 | the issuer bit is effective if and only if it is in the base |
| `FirstFit.Collision` | microkernel/src/iommu.rs:371-377 | finds a range that the candidate meets, or none does |
| `FirstFit.Search` | microkernel/src/iommu.rs:362-383 | the lowest page-aligned start in the window that meets no range; none exactly when there is no such start |
| `FirstFit.ChooseIova` | microkernel/src/iommu.rs:362-383 | the lowest page-aligned address between 16 MB and 2 GB that meets no mapping of the domain; none exactly when there is no such address |
| `FirstFit.FindVa` | microkernel/src/shm.rs:153-173 | the same for the regions mapped by this process, between 512 and 768 MB |
| `FirstFit.ChooseMmioVa` | microkernel/src/syscalls.rs:1342-1362 | the same for the leases of this address space, between 384 and 512 MB |
| `Stage2.WordRoundTrip` | microkernel/src/iommu.rs:266-273 | a table word gives back its page and its valid bit |
| `Stage2.PathInjective` | microkernel/src/iommu.rs:280-282 | distinct device pages have distinct table indices |
| `Stage2.HardwareIs` | microkernel/src/iommu.rs:266-315 | the stage-2 walk of the Arm architecture, which takes a word for a table, a block or a page by its two low bits, reaches exactly the mapped pages, each byte in its place, as normal write-back memory, readable, writable and inner shareable |
| `Stage2.LeafWord` | microkernel/src/iommu.rs:306-313 | the fields of a page word, as the hardware reads them |
| `Stage2.AddSecond` | microkernel/src/iommu.rs:283-291 | hanging a zeroed page into the root maps nothing new and disturbs no other table |
| `Stage2.AddThird` | microkernel/src/iommu.rs:292-301 | nor does hanging one into a second-level table |
| `Stage2.SetLeaf` | microkernel/src/iommu.rs:302-314 | writing a leaf word maps exactly that page |
| `Stage2.ClearLeaf` | microkernel/src/iommu.rs:336-339 | clearing it unmaps exactly that page |
| `Iommu.MapPage` | microkernel/src/iommu.rs:275-315 | the hardware finds this page mapped to that one and every other address as before; which error exactly when; on failure it finds every address as before, and every page taken from the free list is a table of this space |
| `Iommu.UnmapPage` | microkernel/src/iommu.rs:317-340 | the hardware faults on this page and finds every other address as before; true exactly when it was mapped |
| `Iommu.FreeTables` | microkernel/src/iommu.rs:342-360 | gives back every table page of the space, each exactly once, and no other |
| `Domains.MapRange` | microkernel/src/iommu.rs:440-453 | maps the whole run, or runs out of memory and leaves every translation as it was, which needs fewer than two free pages per page mapped |
| `Domains.Undone` | microkernel/src/iommu.rs:445-450 | unmapping a run that was free before gives back the very same table contents |
| `Domains.UnmapRange` | microkernel/src/iommu.rs:483-487 | unmaps exactly the run |
| `Domains.DescribesAdd` | microkernel/src/iommu.rs:428-468 | tables and list agree after a mapping is added |
| `Domains.DescribesRemove` | microkernel/src/iommu.rs:470-496 | and after one is removed |
| `Domains.Isolation` | microkernel/src/iommu.rs:275-496 | the hardware reaches memory at a device address if and only if a recorded mapping of its own domain covers it, at the byte that mapping says, with the rights of ordinary memory |
| `Domains.VmidShared` | microkernel/src/iommu.rs:397-399 | tags are never zero and fit; two ids share one exactly when they differ by a multiple of 65534 |
| `Domains.AttachNext` | microkernel/src/iommu.rs:386-425 | failed attachments use up ids, and the next one gets the id after them |
| `Domains.SharedTag` | microkernel/src/iommu.rs:386-425 | two live domains come to share a tag |
| `Streams.ActSettled` | microkernel/src/iommu.rs:386-425 | a section leaves the entry of every requester that has a domain leading to it, if and only if it does not write over the entry of a requester with another domain |
| `Streams.OneDomain` | microkernel/src/iommu.rs:386-425 | then no requester has two domains |
| `Streams.EveryInterleaving` | microkernel/src/iommu.rs:386-560 | the same over every interleaving of any number of calls |
| `Streams.CreateAlone` | microkernel/src/iommu.rs:386-425 | creating a domain with no other call under way keeps it, whatever the hardware replies |
| `Streams.DestroyAlone` | microkernel/src/iommu.rs:532-560 | so does destroying one |
| `Streams.CreateExactly` | microkernel/src/iommu.rs:386-425 | a creation that is not interrupted lists the domain and makes the entry of its requester lead to it, or leaves both as they were, but for an entry that was written and not acknowledged, which ends in bypass |
| `Streams.DestroyExactly` | microkernel/src/iommu.rs:532-560 | a destruction takes the domain off the list and leaves the requester in bypass |
| `Streams.TwoDomains` | microkernel/src/iommu.rs:386-425 | two overlapping calls give one requester two domains |
| `Streams.LeftInBypass` | microkernel/src/iommu.rs:532-560 | a domain created between the sections of a destruction is listed and in bypass |
| `Domains.Manager.constructor` | microkernel/src/iommu.rs:386-425 | no domains, all pages free |
| `Domains.Manager.CreateDomain` | microkernel/src/iommu.rs:386-425 | an empty domain for a requester that has none; the exact condition of success and of every error, each of which gives the page back; an id is used up by every attempt that got a page |
| `Domains.Manager.MapContiguous` | microkernel/src/iommu.rs:428-468 | records and maps the range at the lowest address that fits; Busy never happens; NoMemory means that no address fits or that fewer than two free pages per page were left, and leaves records and translations alone; no page is lost |
| `Domains.Manager.Unmap` | microkernel/src/iommu.rs:470-496 | takes back that mapping, its pages and its record, and nothing else |
| `Domains.Manager.DestroyDomain` | microkernel/src/iommu.rs:532-560 | refused exactly while mappings remain; frees each table page once; without the hardware's acknowledgement exactly those pages are lost |

## Left out

- Superblock and journal: the volume's superblock copies and the in-memory journal, which never refuses an entry, are not modelled.
- Disk.Device.WriteBlock: a device of fixed size; the memory device grows on a write past its end.
- Volumes.Volume.RestoreSnapshot: does not promise a consistent volume; operations after a restore that is not the newest, and the commit of the next one, are not followed further than `Restoring` does.
- Mounting.CrashThenRemount: an operation at the last 64-bit generation is left out (`Banks.BankReused`).
- Images.CrashRecovery: the loading half leaves out a mixture of two payloads that has the checksum of the one it overwrote.
- Devices with no room for data behind the banks and block sizes other than 4096: `Mounting.Mount` starts from a device larger than the reserved area.
- Sorting and removing duplicates of the reserved list at mount: marking is the same without it.
- SHA-256: the digest is a parameter of `WriteFile`.
- Volumes.Volume.WriteFile: the crash clause stops at the last 64-bit generation, where the saturating counter makes the store overwrite the current bank (`Banks.BankReused`).
- Mounting.Mount: the superblock copies are not written; the mounted directory is promised to be the stored one only for keys in normal form, which is what every operation stores; blocks reserved by the mount options must lie outside the stored data.
- Of the allocator `with_reserved`, `allocate_many` and `try_free`: they only add easy members.
- Snapshot ids and pids as machine words: they are unbounded here, except where the source asserts (`PidSpace`).
- KernelExits.SpawnFailsKeeps: placing the record and the failure to load are one step; until it is queued nothing else knows the pid.
- KernelExits.DieKeeps: the decision to reap and the first section of the reap are one step; nothing that the decision looks at can change between them.
- KernelRaces.HitDooms: the visits that the reap under way still makes may be hits as well.
- KernelRuns.BlockedNamedOnce: which entry a channel, futex or tick takes out is left open, so the result holds for any choice.
- KernelRuns.RunnableTicket: the level at which a pid is queued is left open; fairness, time slices and priority boosts are not modelled.
- The `svc #2` quick exit, adopted orphans as wait targets, thread-group address spaces, `set_parent` as a step of its own.
- The exit path in place: `exit`, `waitpid_step` and `fork` are steps of the state machine on values; the table operations they use are methods.
- The lookup of a channel by number, the non-atomic `register_waiter`, and fairness on channels that mix targeted and untargeted sends.
- Capability masks are sets of bit numbers.
- Sessions.ActSound: a login is by a process that has a record; `effective_caps`, which reads the session and then the book, changes nothing.
- KernelRefines.StepFaithful: which of several ended children a wait collects is left open; the code takes the one in the lowest slot.
- Stage2.HardwareIs: the walk starts at the first level; that the stream table entries ask for this, and for addresses of 32 bits, is in the words left out below.
- FirstFit.Search: addresses are unbounded, so the 64-bit overflow of a recorded range is not modelled.
- Domains.Manager.CreateDomain: one call here, with the requester's entry and the list changed together; the sections by themselves are in `Streams`, without the table pages.
- Domains.Manager.MapContiguous: the physical address is unbounded before it is cut to the 48-bit page field.
- The words of stream table entries, the command queue itself, the not-ready states, `alloc_dma` and `free_dma` of the IOMMU.
- UEFI loading, ACPI and PCI probing, MMIO, assembly, caches and TLBs; drawing, fonts and console escapes; tools and installers.
