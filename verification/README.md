# Verified model of the acp-agent installer, serving runtime and daemon

acp-agent installs agents from a registry, runs them and serves them over HTTP and
WebSocket. This project models the parts of it where many processes or tasks share
state, and proves what holds over every run or every input.

**Binary cache.** Each agent version has one directory. Installers, runners,
uninstalls, update cleanups and the startup sweep share it through a publication
lock (exclusive) and a use lock (shared by runners, exclusive for writers). An
installer stages a payload in a work directory, moves the old entry to a backup,
renames the staged one into place, validates it there and commits or rolls back; the
sweep repairs what a crash left. `CacheProtocol` has every process as a small-step
program, with cancelled futures whose blocking tasks live on, lock waiters that
cannot be interrupted, stale directory listings, removals that fail or stop half-way
and crashes at any step. `CacheGuarantees` says what all runs guarantee to runners and
writers, `CacheCompleteness` when a payload can be partial, `CacheDurability` why an
entry is not lost, and `Counterexamples` exhibits the runs outside these guarantees.
`CacheProgress`, `CacheOutcomes` and `CacheCleanup` say what comes of it all: why installs
end, that they arrive, what they hand out, and what is cleaned up; `CachePaths` builds runs.
`LockHandoff` takes a single lock apart into the caller, the
blocking worker and the two channels between them. `PlatformDir`, `Publication` and
`Recovery` are the same publication and sweep written as imperative code over one
directory, with every rename or removal allowed to fail, removals also half-way, and
a crash in any state in between; `ProtocolRefinement` ties the protocol's promotion
to that code. `Names` holds the strings both sides must agree
on, `PayloadTree`, `PayloadHash` and `Validation` the digest that decides whether an
entry may be executed, `Archive` and `InstallLog` two bounded loops, and `Ordering`
the sort of directory listings.

**Serving.** `Admission` is the process-permit accounting with its one-slot WebSocket
reservation, `LaunchHealth` the readiness verdict and `StderrTail` the bounded memory
of an agent's standard error.

**Daemon.** `Daemon` has the supervisor's operations as interleaved steps under four
kinds of lock, `DaemonEffects` what they bring about; `Routes` is the route table of one instance and its longest-prefix
dispatch.

Where the code does not do what its own comments say, the model follows the code and
the exact condition is proved:

- `safe_path_component` (src/installer/cache.rs:323-331) is said to keep distinct
  names apart. It does not: `a/b` and the already clean name its component is spelled
  like share a directory. `Names.ComponentCollisions` lists all collisions.
- The sweep takes any work directory whose name contains `-backup-` for a backup
  (src/installer/binary/recovery.rs:91-94). For a version such as `1-backup-2` an
  abandoned staging directory can become the entry:
  `Recovery.AbandonedStagingInstalled`, `Recovery.ConfusableKeyExample`.
- For such a version a sweep can even put a half-downloaded payload in place:
  `Counterexamples.ConfusableKeyInstallsPartial`. No lease is ever given on it:
  `CacheGuarantees.LeasesAreComplete`.
- A sweep whose restoring renames all fail still deletes what it can of the backups:
  `Recovery.EntryAfterSweep`, `Counterexamples.FailedRenamesLoseEntry`.
- Of several backups the sweep restores the one whose name sorts last, and `pid 9` sorts
  behind `pid 10` (src/installer/binary/recovery.rs:98-99). An older backup that was
  left behind can so replace the entry an interrupted publication had moved aside:
  `Recovery.CrashThenSweep`, `Recovery.BackupOrderIsNotAge`.
- A crash in the middle of the deletion a rollback makes
  (src/installer/binary/publication.rs:141-143) leaves a wreck in place, and the sweep
  then deletes the old entry's backup: `Recovery.WreckStays`,
  `Counterexamples.WreckedRollbackLosesEntry`.
- An uninstall that dies in its deletion leaves a partial entry, which the next install
  may move aside as a backup: `Counterexamples.CrashedUninstallLeavesPartial`. Interrupted
  removals are the only way to one, under a key without the backup marker:
  `CacheCompleteness.OnlyCompletePayloads`.
- An uninstall deletes with an asynchronous removal (src/installer/cache.rs:564) that
  outlives its cancelled caller and the caller's locks. A lease is broken by exactly
  this: `CacheGuarantees.LeaseExact`, `CacheGuarantees.LeaseBrokenExactlyBy`,
  `Counterexamples.CancelledUninstallBreaksLease`.
- An install creates its extraction directory in the same way
  (src/installer/binary/staging.rs:32), so one cancelled at that moment can leave a
  staging directory behind: `Counterexamples.CancelledDownloadLeavesDirectory`.
- The install log keeps its cap unless one line is longer than 786,378 bytes:
  `InstallLog.LineLimitIsExact`.

Check everything with `dafny verify dfyconfig.toml`. Concurrent code is a state machine
whose `Behaviour` is any sequence of steps from the initial state; in-place code is a
class or a method with a loop. SHA-256 (FIPS 180-4), command resolution, process ids,
clocks and temporary-name suffixes are parameters; SHA-256 enters only through the
shape of its hex digests, 64 lower-case characters. Non-deterministic choices (`*`) stand for faults,
cancellations and listing orders.

## Model

| member | source | states |
|---|---|---|
| `Names.SafePathComponent` | src/installer/cache.rs:332-354 | The one-pass rewriting loop, with its lossy flag, dot trimming and empty case, keeps exactly the names that are already clean and appends a digest to every other stem |
| `Names.ComponentIsClean` | src/installer/cache.rs:332-354 | Every component is non-empty, made of safe characters, and neither starts nor ends with a dot |
| `Names.SafeCharacters` | src/installer/cache.rs:335-337 | The characters kept are the letters and digits of ASCII, the dot, the dash and the underscore, and no others |
| `Names.ComponentSpells` | src/installer/cache.rs:332-354 | A name of such characters without outer dots stays; of any other the outer dots are cut off, every other character becomes an underscore, so does an empty rest, and a dash and the digest of the name follow |
| `Names.ComponentIdempotent` | src/installer/cache.rs:332-354 | Making a component of a component changes nothing |
| `Names.ComponentCollisions` | src/installer/cache.rs:323-354 | Two different names share a component if and only if one is clean and spelled like the other's output, or both were rewritten from one stem under equal digests |
| `Names.ComponentCollisionExample` | src/installer/cache.rs:323-354 | The documented claim that distinct names never share a directory fails for `a/b`, whatever the digest |
| `Names.LastMarkerDecides` | src/installer/binary/recovery.rs:121-129 | The parser returns what stands before the last marker of either kind |
| `Names.BackupRoundTrip` | src/installer/binary/publication.rs:152-167 | Parsing a printed backup name gives its key back, even when the key contains the markers |
| `Names.StagingRoundTrip` | src/installer/binary/install.rs:109-118 | Parsing a staging name with an alphanumeric suffix gives its key back, even when the key contains the markers |
| `Names.PublishedIsNotWorkDir` | src/installer/binary/recovery.rs:121-129 | No published entry is ever taken for a work directory |
| `Names.SweepAndInstallerAgree` | src/installer/cache.rs:31-42 | From either kind of work directory name the sweep recovers the entry, and so the lock file, its installer uses |
| `Names.LocksAreSeparate` | src/installer/cache.rs:31-58 | Lock files coincide exactly when entries do, and no publication lock is a use lock |
| `Names.EntryIsNotLockFile` | src/installer/cache.rs:303-312 | A digest-bound entry directory ends in a hex digit and is never one of the lock files beside it |
| `Names.BackupLooksLikeBackup` | src/installer/binary/recovery.rs:91-94 | Every real backup passes the sweep's test |
| `Names.StagingLooksLikeBackup` | src/installer/binary/recovery.rs:91-94 | A staging directory passes the sweep's test for backups if and only if its key and the dash behind it contain the marker |
| `Names.HexKeyConfusableInside` | src/installer/binary/recovery.rs:91-94 | For a key ending in a hex digit that means the key itself contains the marker |
| `Ordering.SortIgnoresListingOrder` | src/installer/binary/validation.rs:78-82 | Entries with distinct names sort to the same sequence whatever order they were listed in |
| `Ordering.SortCommutes` | src/installer/binary/validation.rs:78-86 | Sorting raw listing entries and then hashing each visits them as sorting the hashed views would |
| `Ordering.BeforeIsFirstDifference` | src/installer/binary/validation.rs:82 | Names are ordered by their first difference, a proper prefix coming first |
| `PayloadTree.EncodePrefixFree` | src/installer/binary/validation.rs:65-119 | The encoding of a node can be cut out of any longer stream in only one way: path, tree and remainder are determined |
| `PayloadTree.CanonDecidesSameness` | src/installer/binary/validation.rs:78-86 | Sorting every directory gives equal trees exactly for payloads that agree in names, nesting, kinds, bytes and link targets |
| `PayloadTree.StreamDecidesSameness` | src/installer/binary/validation.rs:47-119 | Two payloads feed the hasher the same bytes if and only if they are the same tree, for all trees whose lengths fit 64 bits |
| `PayloadTree.LittleEndianDigits` | src/installer/binary/validation.rs:95-99 | A length is written as the eight digits of its value to base 256, the lowest first |
| `PayloadTree.ConstantsSpell` | src/installer/binary/validation.rs:47-63 | The domain separator and the tags are the bytes of the source's literals |
| `PayloadTree.StreamOfExample` | src/installer/binary/validation.rs:47-119 | The hasher's input for a directory with a file, a link and a special node listed out of order, byte range by byte range |
| `PayloadHash.HashFileBody` | src/installer/binary/validation.rs:87-108 | Whatever pieces a file is read in, the hasher is fed its content when its length is the declared one; the call fails if it is not, or if a read fails before the end |
| `PayloadHash.HashEntries` | src/installer/binary/validation.rs:83-86 | The loop over a sorted directory feeds the encodings of its entries in order, and fails only for a reason some entry gives |
| `PayloadHash.HashDirectory` | src/installer/binary/validation.rs:76-86 | A directory listed in any order feeds the encoding of the sorted directory |
| `PayloadHash.HashPayloadEntry` | src/installer/binary/validation.rs:65-119 | The recursive in-place hash refines the pure encoding of the canonical tree, or reports cancellation, change, size or access truthfully |
| `PayloadHash.HashPayload` | src/installer/binary/validation.rs:47-52 | The digest of a payload is the digest of its domain-separated stream, independent of listing order and read sizes |
| `Validation.ValidateCachedBinary` | src/installer/binary/validation.rs:163-237 | Validation accepts only entries that describe the target, resolve its command and match both digests, digests being optional only for targets without one; it refuses only entries that do not; anything else is a read error |
| `Validation.SealedIsAccepted` | src/installer/binary/staging.rs:170-196 | A freshly sealed payload passes validation, and sealing fails exactly when the command names no regular file |
| `Validation.EqualHexIsEqual` | src/installer/binary/validation.rs:209-222 | Two lower-case digests are taken for equal if and only if they are equal |
| `Validation.CapitalsMatch` | src/installer/binary/validation.rs:209-222 | A digest in capitals matches the same digests as in lower case |
| `Validation.ReplacedExecutableIsRefused` | src/installer/binary/validation.rs:219-229 | An entry whose executable has other bytes than the sealed one is accepted only if the two collide |
| `Validation.ForeignEntriesAreRefused` | src/installer/binary/validation.rs:163-200 | An entry made for another agent, version, platform, archive, command or archive digest, or without its digests for a target that has one, is never accepted, whatever it contains |
| `Validation.TamperingIsDetected` | src/installer/binary/validation.rs:204-229 | An entry whose tree was replaced after sealing is accepted only if the tree is the sealed one or the digests collide; relisting alone is accepted |
| `PlatformDir.Dir.Rename` | src/installer/binary/publication.rs:103-118 | A rename, always to a free name, moves one directory or changes nothing |
| `PlatformDir.Dir.RemoveDirAll` | src/installer/binary/publication.rs:125-149 | A removal wrecks one directory and then takes it away, finds none, changes nothing, or stops with the wreck in place |
| `Publication.Plan.OnTheWayIsRecoverable` | src/installer/binary/publication.rs:78-151 | In each state a publication passes through, the old entry is in place or whole in the backup, and nothing but the staged payload is ever put in its place; a wrecked rollback still has the old entry beside it |
| `Publication.PromotionTransaction.CleanupStaging` | src/installer/binary/staging.rs:113-125 | The staging path is given up exactly when the directory is gone; a failure may leave a part of it |
| `Publication.PromotionTransaction.DiscardSuperseded` | src/installer/binary/publication.rs:92-96 | The valid entry is reused only once the staging directory is gone |
| `Publication.PromotionTransaction.PreserveExisting` | src/installer/binary/publication.rs:83-110 | A valid entry is kept unless a replacement is forced; any other is in the backup before publication goes on |
| `Publication.PromotionTransaction.Promote` | src/installer/binary/publication.rs:112-119 | The staged payload is in place exactly when the transaction says so |
| `Publication.PromotionTransaction.PromoteAndValidate` | src/installer/binary/publication.rs:112-132 | Only a payload that validates where it stands is committed; otherwise the undo is still owed |
| `Publication.PromotionTransaction.Commit` | src/installer/binary/publication.rs:123-131 | After the commit the new entry stays even if its backup cannot be deleted |
| `Publication.PromotionTransaction.RestoreOld` | src/installer/binary/publication.rs:141-148 | Undoing any step reached arrives at the directory as it was |
| `Publication.PromotionTransaction.DropStaging` | src/installer/binary/publication.rs:149-151 | The last cleanup, tried again when the staging guard goes, removes the staging directory and nothing else |
| `Publication.PromotionTransaction.Drop` | src/installer/binary/publication.rs:135-151 | Dropping an uncommitted transaction leaves the directory as it was without the staging directory; dropping a committed one changes nothing |
| `Publication.PromotionTransaction.Run` | src/installer/binary/publication.rs:78-151 | Rollback is exact whichever operation fails, commit publishes a validated payload, and every state on the way is recoverable, even when the undo itself fails, except for the wreck of a failed publication's rollback |
| `Recovery.CrashThenSweep` | src/installer/binary/recovery.rs:62-117 | From any recoverable state a sweep leaves the old entry or the staged one, never none where one was, unless a stale backup sorts behind the publication's own, and then it leaves such a stale backup; in no case a removable work directory |
| `Recovery.OvertakenMeansStaleHeir` | src/installer/binary/recovery.rs:98-105 | A stale backup is restored if and only if one sorts behind the publication's own backup and staging directory |
| `Recovery.WreckStays` | src/installer/binary/publication.rs:141-148 | After a crash in a rollback's deletion the wreck stays the entry and the backup is deleted, so the outcome is atomic if and only if the wreck equals the old or the staged payload |
| `Recovery.BackupOrderIsNotAge` | src/installer/binary/recovery.rs:98-99 | The backup of process 9 is preferred to the backup of process 10, whichever is older |
| `Recovery.InstallerPlanIsWellChosen` | src/installer/binary/publication.rs:152-167 | The names an installer prints belong to its key and are never confused with each other, except for staging under a key with the marker |
| `Recovery.CrashAtomicity` | src/installer/binary/publication.rs:78-151 | The same for the names the installer prints, for every version and every content of the directory; a key with the marker needs its staging directory whole |
| `Recovery.PublishUntilCrash` | src/installer/binary/publication.rs:78-151 | Whatever fails and whenever the machine stops, it leaves a recoverable state or a wrecked rollback |
| `Recovery.PublishCrashSweep` | src/installer/binary/recovery.rs:28-119 | Publish, stop anywhere, sweep at the next start: the outcome is atomic but for the three exceptions named above |
| `Recovery.PrintedIsWellNamed` | src/installer/binary/recovery.rs:121-129 | Every work directory an installer prints belongs to a published name |
| `Recovery.AbandonedStagingInstalled` | src/installer/binary/recovery.rs:88-94 | A staging directory abandoned before publication becomes the entry if and only if its key contains the backup marker |
| `Recovery.ConfusableKeyExample` | src/installer/binary/recovery.rs:91-94 | Version `1-backup-2` has such a key under every archive digest |
| `Recovery.HeirExists` | src/installer/binary/recovery.rs:97-104 | If any backup can be renamed, one of them is the last by name and is restored |
| `Recovery.EntryAfterSweep` | src/installer/binary/recovery.rs:88-116 | After a sweep an unlocked key has an entry exactly when it had one or some apparent backup could be renamed; otherwise the backups are deleted all the same |
| `Recovery.GroupWorkDirs` | src/installer/binary/recovery.rs:31-56 | Every work directory is filed once, under the key its name parses to, and nothing else is |
| `Recovery.RestoreBackup` | src/installer/binary/recovery.rs:88-105 | The restored backup is the last by name of those that can be renamed; none is restored only if none can |
| `Recovery.DeleteGroup` | src/installer/binary/recovery.rs:106-116 | Of the group, what can be removed goes, what a removal tears stays torn, everything else stays, and the count is exact |
| `Recovery.SweepGroup` | src/installer/binary/recovery.rs:62-117 | One key's sweep restores and deletes as specified and touches no other key |
| `Recovery.SweptStep` | src/installer/binary/recovery.rs:58-117 | Sweeping keys one after the other, in any order, composes to the specified outcome |
| `Recovery.CleanStaleStagingEntries` | src/installer/binary/recovery.rs:28-119 | The sweep of one directory: the fate of every single name, and a count of removals that balances the directory's size |
| `Recovery.CleanStaleStagingTree` | src/installer/binary/recovery.rs:28-119 | The whole sweep: all platform directories are listed first, each then fares as if it were alone, and the count is the sum |
| `CacheProtocol.StepKeepsInv` | src/installer/binary/install.rs:88-146 | Every step of every process, cancelled or not, keeps the invariant on locks, owners, work directories and the entry |
| `CacheProtocol.BehaviourInv` | src/installer/binary/install.rs:88-146 | The invariant holds in every reachable state |
| `CacheProtocol.LocalIsGuarded` | src/installer/cache.rs:534-579 | A run's own step changes the entry only under both exclusive locks, or in the deletion of an uninstall cancelled while deleting |
| `CacheGuarantees.EntryIsGuarded` | src/installer/binary/recovery.rs:73-105 | In every run the entry changes only in these two ways, or when a sweep puts a directory where no entry is, under the publication lock |
| `CacheProtocol.StepKeepsClaims` | src/installer/binary/install.rs:88-146 | Every step but such a deletion leaves in place what any run counts on, be it a validated hit, a published result or a lease |
| `CacheGuarantees.LeaseExact` | src/installer/binary/install.rs:88-146 | A run that counted on nothing in some state finds in place, at any later time, the entry it was given and holds a lease on, unless a cancelled uninstall's deletion happens in between; earlier cancellations do not matter |
| `CacheGuarantees.LeasesAreComplete` | src/installer/binary/validation.rs:145-161 | Nobody is ever given a lease on a payload that was not completed, under any key |
| `CacheGuarantees.LeaseBrokenExactlyBy` | src/installer/cache.rs:563-578 | A step changes a leased entry only if it is the deletion of such a cancelled uninstall, and every such deletion breaks a complete entry |
| `CacheGuarantees.AdriftMeansCancelled` | src/installer/cache.rs:563-564 | A deletion that nobody waits for any more comes from an uninstall cancelled while it deleted |
| `CacheProgress.GoneForAReason` | src/installer/binary/install.rs:88-146 | In every run, an install without a lease ends only when it is cancelled or crashes, its download, directory or sealing failed, its cleanup after a failed extraction is over, or its promotion brought nothing: one that published or kept an entry hands it out |
| `CacheProgress.UndisturbedStaysOnCourse` | src/installer/binary/install.rs:88-146 | Whatever all other runs do, crash or leave behind, an install with which nothing of its own goes wrong stays on its way to a lease, and what it put in place is there and complete, unless a cancelled uninstall deletes |
| `CacheProgress.StepsGetNearer` | src/installer/binary/install.rs:88-146 | Every step and every lock such an install gets takes it nearer to its lease, and no step of anybody throws it back |
| `CacheOutcomes.CanGoOn` | src/installer/binary/install.rs:88-146 | In every reachable state such an install has its lease, waits for a lock that somebody else holds, or can take a step that takes it nearer |
| `CacheOutcomes.InstallArrives` | src/installer/binary/install.rs:88-146 | From any state of the system in which nobody stands in its way, it reaches within a bounded number of its own steps a lease on a complete entry in place, with no staging directory, no backup and no other lock: the entry it validated, the one it kept, or its own |
| `CacheOutcomes.NewInstallGets` | src/installer/binary/install.rs:88-146 | Which of the three it is: a complete entry that validates is leased, one that validates at the promotion is kept unless a refresh is forced, and otherwise its own is published |
| `CacheOutcomes.FirstPublishesSecondShares` | src/installer/binary/install.rs:88-146 | Reachable states in which the first install has published and leased its payload and a second one leases the same entry beside it |
| `CacheOutcomes.ThirdKeepsOrReplaces` | src/installer/binary/publication.rs:83-110 | Reachable states in which a later install has kept that entry, or replaced it by its own when forced |
| `CacheCleanup.RollbackRestores` | src/installer/binary/publication.rs:135-151 | A promotion that fails before or after its rename can put back what it moved aside, or leave nothing where nothing was, and is rid of its staging directory |
| `CacheCleanup.CancelledInstallCleansUp` | src/installer/binary/staging.rs:205-258 | An install cancelled at any stage can clean up alone: its task ends, its staging directory goes, what it moved aside comes back and its locks are released |
| `CacheCleanup.UninstallRemoves` | src/installer/cache.rs:534-579 | An uninstall that nobody stands in the way of removes the entry and releases both locks |
| `CacheCleanup.SweepRestoresAndClears` | src/installer/binary/recovery.rs:73-117 | A sweep that nobody stands in the way of puts a backup it saw back where no entry is, and takes away every work directory it saw and no other |
| `LockHandoff.TokenMeansLocked` | src/installer/cache.rs:69-134 | In every run a caller with a token has the file locked for it, and nobody else has a lock or a token unless both read |
| `LockHandoff.FreeLockIsGot` | src/installer/cache.rs:69-134 | A lock that nothing stands in the way of is got, in any mode, after three steps of the worker and one of its caller |
| `LockHandoff.RefusalsAreTrue` | src/installer/cache.rs:69-134 | A caller is told that a lock is busy only if it asked not to wait and somebody has it, and that it failed only if it did |
| `LockHandoff.WaitingCallerIsTold` | src/installer/cache.rs:116-123 | A caller that still waits is never forgotten by a worker that sleeps or is finished |
| `LockHandoff.LockOutlivesCaller` | src/installer/cache.rs:125-134 | The file is unlocked only after its caller has let go of it |
| `LockHandoff.AbandonedHolderCloses` | src/installer/cache.rs:125-134 | A worker that has the lock when its caller is gone, dropped before, at or after the announcement, closes the file in at most three steps of its own, whatever else goes on |
| `LockHandoff.WorkersTakeFewSteps` | src/installer/cache.rs:69-134 | No worker takes more than five steps in any run |
| `LockHandoff.AbandonedLocksDrain` | src/installer/cache.rs:69-134 | When all callers of a lock are gone, the workers alone unlock it, in no more steps than they have left together |
| `LockHandoff.HandoffIsGrant` | src/installer/cache.rs:69-134 | Seen from outside, an acquisition waits, is granted when the lock is free, and is taken back only from a caller that has let go |
| `LockHandoff.HandoffSimulates` | src/installer/cache.rs:69-134 | For all runs that share a lock file at once, every step of the hand-off is no step of the cache protocol, a grant it allows, or the release of a lock that nothing of its run uses any more |
| `CacheGuarantees.WriterImpliesLock` | src/installer/binary/staging.rs:23-148 | Whatever may still write into a staging directory has the publication lock, alone and with no sweep deleting, except the creation of a cancelled install's extraction directory |
| `CacheGuarantees.StrayMeansCancelled` | src/installer/binary/staging.rs:31-37 | That exception needs an install cancelled while it was creating the directory |
| `CacheGuarantees.KeptMeansFailed` | src/installer/binary/staging.rs:113-148 | A staging directory that was given up was left by a removal that failed |
| `CacheGuarantees.NothingLeftBehind` | src/installer/binary/staging.rs:205-258 | A run that is over has no staging directory left, unless it crashed, was cancelled while creating its extraction directory, or a removal of it failed |
| `CacheCompleteness.OnlyCompletePayloads` | src/installer/binary/recovery.rs:73-105 | For a key without the backup marker and while no removal is interrupted, the entry is partial only while an uninstall or a rollback is removing it under both locks, and a backup only while its publication or a sweep is removing it under the publication lock, whatever else crashes, fails or is cancelled |
| `CacheCompleteness.DeletionGoesOn` | src/installer/binary/publication.rs:141-148 | A removal that is not interrupted goes on until nothing is left of what it has torn |
| `CacheDurability.EntrySurvivesExact` | src/installer/binary/publication.rs:78-151 | From any settled state on, some complete entry stays on disk, in place or aside, through every step, crash and failure, unless an uninstall removes something of the entry or a sweep goes on to delete backups while no complete entry is in place; and each complete entry on disk was there before or was put in place since |
| `CacheDurability.SettledSinceQuiet` | src/installer/binary/install.rs:88-146 | A state is settled if, since the start or some state in which nobody counted on the entry and no sweep deleted, no cancelled uninstall and no such sweep took anything |
| `ProtocolRefinement.TxStepIsPublicationStep` | src/installer/binary/publication.rs:78-151 | Each step of the protocol's promotion, removals half-way and failing undos included, is a change of the directory that the publication transaction makes, and every directory in between is recoverable or, in an undo, the wreck of a rollback |
| `Counterexamples.CancelledUninstallBreaksLease` | src/installer/cache.rs:563-578 | A reachable state in which a runner holds a lease on an entry that is gone |
| `Counterexamples.CancelledDownloadLeavesDirectory` | src/installer/binary/staging.rs:31-37 | A reachable state in which a finished, uncrashed install has left a staging directory and holds no lock |
| `Counterexamples.ConfusableKeyInstallsPartial` | src/installer/binary/recovery.rs:88-105 | For a key with the backup marker, a reachable state in which a sweep has put a partial payload in place |
| `Counterexamples.CrashedUninstallLeavesPartial` | src/installer/cache.rs:563-578 | For a key without it, a reachable state in which a dead uninstall has left a partial entry that nobody is removing |
| `Counterexamples.FailedRenamesLoseEntry` | src/installer/binary/recovery.rs:98-116 | A run without any uninstall in which a sweep whose renames all fail deletes the last complete entry |
| `Counterexamples.WreckedRollbackLosesEntry` | src/installer/binary/publication.rs:141-148 | A run without any uninstall in which a rollback dies in its deletion and the sweep deletes the old entry's backup |
| `Archive.CopyWithLimit` | src/installer/binary/archive.rs:235-260 | The copy never writes more than its limit, succeeds only with all the entry yields, and refuses only an entry that yields more |
| `Archive.TotalsGrow` | src/installer/binary/archive.rs:343-414 | Running totals never pass the archive's totals, so refusing on a running total refuses no acceptable archive |
| `Archive.ExtractFile` | src/installer/binary/archive.rs:396-414 | A file is created once, takes no more than its limit, and is refused only if it yields something else than it declares |
| `Archive.ExtractSymlink` | src/installer/binary/archive.rs:433-469 | A link is created only once its target was read in full, within the limit, and found safe |
| `Archive.ExtractZip` | src/installer/binary/archive.rs:328-469 | However entries lie about their sizes and however the extraction ends, the bytes taken in never exceed the budget, the files and links never exceed their limit, the remaining budget never underflows, and an undisturbed extraction succeeds exactly for archives within all limits |
| `InstallLog.LogFile.Truncate` | src/installer/binary/log.rs:108-129 | Truncation leaves the header and the tail without its first partial line |
| `InstallLog.KeptIsBehindFirstNewline` | src/installer/binary/log.rs:108-129 | What is kept of the last 256 KiB starts right behind its first newline, or is all of it without one |
| `InstallLog.LogFile.Append` | src/installer/binary/log.rs:61-88 | An append truncates first exactly when the line would not fit |
| `InstallLog.AppendKeepsEnd` | src/installer/binary/log.rs:61-129 | An append to a log that is the end of its history leaves the end of the longer history, within the cap |
| `InstallLog.LogIsEndOfHistory` | src/installer/binary/log.rs:61-129 | After any appends of complete lines below the limit, the log is an optional header followed by the history from a line boundary on, never over 1 MiB |
| `InstallLog.AppendAll` | src/installer/binary/log.rs:61-88 | Any number of appends to a new log leaves the end of the history from a line boundary on, within the cap |
| `InstallLog.LineLimitIsExact` | src/installer/binary/mod.rs:15-17 | A line respects the cap of every log if and only if it is no longer than 786,378 bytes |
| `StderrTail.PushStderr` | src/serve/runtime.rs:307-325 | One line of any length leaves the last 16 KiB of what was remembered, the line and its newline, and the deque never grows beyond that meanwhile |
| `StderrTail.SessionGrows` | src/serve/runtime.rs:307-325 | Forgetting early loses nothing: the tail of a tail with one more line is the tail of the whole |
| `StderrTail.PushAll` | src/serve/runtime.rs:307-325 | After any session the deque holds exactly the last min(16384, total) bytes written |
| `Admission.PermitsConserved` | src/serve/runtime.rs:387-433 | In every reachable state free, request-carried, reserved and agent-held permits add up to the limit, and the reservation and the handshake mutex come and go together |
| `Admission.AcceptanceIsByProtocol` | src/serve/runtime.rs:181-196 | An extended CONNECT over HTTP/2 is accepted by any status from 200 to 299, everything else by 101 alone |
| `Admission.ScopeTakesAndReturns` | src/serve/runtime.rs:171-179 | An admitted initialize takes a free permit, and the end of its scope gives it back |
| `Admission.AgentTakesAndReturns` | src/serve/runtime.rs:598-605 | A connecting agent takes a free permit, and its end gives it back |
| `Admission.RefusalReturnsReservation` | src/serve/runtime.rs:387-433 | An upgrade that finds the handshake open and a permit free reserves it, and its refusal gives back the permit and the handshake |
| `Admission.ReservationReachesAgent` | src/serve/runtime.rs:109-126 | The permit of an accepted upgrade goes to the agent launched next, which connects with it and gives it back at its end |
| `Admission.UnadmittedUpgradeLeavesNothing` | src/serve/runtime.rs:405-419 | An upgrade that finds no permit or is dropped on the way leaves everything as it was |
| `Admission.ReservationNotDisplaced` | src/serve/runtime.rs:405-419 | No upgrade enters or reserves while a reservation is outstanding |
| `Admission.ScopedPermitWaits` | src/serve/runtime.rs:171-179 | The permit of an admitted initialize stays with it through any other events |
| `Admission.InitializeKeepsReservation` | src/serve/runtime.rs:109-126 | The launch of an admitted initialize takes its own permit, never the WebSocket reservation or a free one, whatever happened in between |
| `Admission.LaunchTakesReservation` | src/serve/runtime.rs:109-126 | A launch takes the reservation if and only if there is one and its own request carries no permit |
| `Admission.StaleRefusalIsHarmless` | src/serve/runtime.rs:421-426 | Once an upgrade's reservation is taken or cancelled, its refusal changes nothing, now or at any later time |
| `Admission.AdmissionState.AdmitInitial` | src/serve/runtime.rs:171-179 | An initialize is admitted exactly when a permit is free, and then carries it |
| `Admission.AdmissionState.ReserveWebSocket` | src/serve/runtime.rs:405-419 | Inside the mutex an upgrade reserves under a new id, or leaves the mutex when no permit is free |
| `Admission.AdmissionState.AnswerUpgrade` | src/serve/runtime.rs:181-196 | A refused upgrade gives back its own reservation and no other, acceptance being 101 or, for HTTP/2, any 2xx |
| `Admission.AdmissionState.LaunchAgent` | src/serve/runtime.rs:109-126 | The factory gives an agent its request's permit first and the reservation second |
| `Admission.AdmissionState.ConnectAgent` | src/serve/runtime.rs:598-605 | An agent connects with its permit or any free one, and fails only when there is none |
| `LaunchHealth.AgentHealth.RecordOk` | src/serve/runtime.rs:248-255 | A success counts, and changes the verdict only if its launch is newer |
| `LaunchHealth.AgentHealth.RecordFailure` | src/serve/runtime.rs:257-269 | A failure counts, and changes verdict and detail only if its launch is newer |
| `LaunchHealth.NewestDecides` | src/serve/runtime.rs:242-269 | Counts are those of the recorded outcomes, and the newest launch among them decides the verdict and the detail |
| `LaunchHealth.OrderDoesNotMatter` | src/serve/runtime.rs:242-280 | Any two orders of recording the same outcomes report the same readiness |
| `LaunchHealth.BehaviourInv` | src/serve/runtime.rs:531-582 | In every interleaving of observers, completions and drops, a launch is recorded at most once and only after its flag was won |
| `LaunchHealth.LaunchesCountedOnce` | src/serve/runtime.rs:531-582 | When all guards are gone and all claims written, each launch has been counted exactly once and the newest decides |
| `LaunchHealth.RecordsTellFirstOutcome` | src/serve/runtime.rs:531-582 | In every run, a launch's record carries the outcome of the first event that decided it: the response observed, or the failure of a guard that completed or was dropped |
| `LaunchHealth.ReportIsOfFirstOutcomes` | src/serve/runtime.rs:618-651 | At quiescence the failures are the launches that failed first, and the verdict and detail are those of the newest launch's first event |
| `Routes.LongestIsUnique` | src/server/routes.rs:250-258 | With distinct routes, at most one longest match exists for a path |
| `Routes.EditsKeepDistinct` | src/server/routes.rs:154-172 | Every history of registrations and removals keeps agent ids and public routes distinct |
| `Routes.MatchingIsPrefix` | src/server/routes.rs:291-296 | A route matches exactly the paths that are the route followed by nothing or by a rest that begins with a slash |
| `Routes.UnregisterUndoesRegister` | src/server/routes.rs:197-208 | After any history, unregistering an id takes back exactly what registering it added |
| `Routes.RouteTable.Add` | src/server/routes.rs:154-172 | A route is added exactly when neither its id nor its path is taken, the id being checked first |
| `Routes.RouteTable.Remove` | src/server/routes.rs:197-208 | The search over the table in any order removes the one route of that id, or none |
| `Routes.RouteTable.Dispatch` | src/server/routes.rs:242-296 | In any iteration order the route served is the unique longest one that is the path up to its end or a slash, none is served only if no route is, route and rewritten suffix are the original path and the query survives; the rewrite fails only if that suffix and query make no URI |
| `Daemon.NextKeepsInv` | src/server/daemon.rs:213-242 | Every step of every operation keeps mutual exclusion, what each task relies on, and the agreement of names and running instances |
| `Daemon.BehaviourInv` | src/server/daemon.rs:101-259 | The invariant holds in every reachable state |
| `Daemon.WaitingClimbs` | src/server/daemon.rs:217-235 | Whoever a task waits for wants something later in the lock order, or is ahead of it in the same queue |
| `Daemon.NoCircularWait` | src/server/daemon.rs:114-123 | No reachable state has tasks waiting on each other in a circle, counting lock queues and a stop that joins its listener under the stop lock |
| `Daemon.NeverStuck` | src/server/daemon.rs:217-242 | While any operation is unfinished, some operation can take its next step |
| `DaemonEffects.EveryoneCanFinish` | src/server/daemon.rs:101-259 | From every reachable state all operations under way can be finished by their own steps, whatever locks and requests they wait for |
| `DaemonEffects.AdvanceDescends` | src/server/daemon.rs:101-259 | Every step of an operation lowers a measure of all that is left to do, so that the operations under way take finitely many steps while no new one arrives |
| `DaemonEffects.EndsForAReason` | src/server/control.rs:95-150 | An operation ends exactly at its last step or because the daemon shuts down, the name is unknown, the instance has stopped, or binding, resolving or matching fails; a create skips binding only for a name in use |
| `DaemonEffects.BoundIsPublished` | src/server/daemon.rs:141-187 | A create whose listener is bound publishes a new instance that runs, listens and has no routes, under a name that was free; one whose bind fails changes nothing |
| `DaemonEffects.EditTakesEffect` | src/server/routes.rs:153-213 | A registration with free id and route is in the table with its runtime, any other changes nothing, nothing in the table has an unregistered id, and all else stays |
| `DaemonEffects.StopTakesEffect` | src/server/daemon.rs:213-242 | A stop marks its instance, joins the listener only when no request is left that came through it, and removes its name, if still its own, once it neither runs nor listens |
| `DaemonEffects.NothingElseChanges` | src/server/daemon.rs:101-259 | No arrival and no other step changes anything shared, but for the beginning of a shutdown and a failing listener |
| `Daemon.ShutdownIsFinal` | src/server/control.rs:37-55 | Once shutting down, the daemon stays so, and no create, register or unregister takes effect |
| `Daemon.RoutesChangeOnlyWhileRunning` | src/server/routes.rs:145-172 | Routes change only on the running instance its name means, in a running daemon, and stay unambiguous |
| `Daemon.OnlyStoppedInstancesAreRemoved` | src/server/daemon.rs:235-242 | A name is given up only when the instance it means has stopped, so a late stop never removes a newer one |
| `Daemon.StopIsLasting` | src/server/daemon.rs:213-249 | After a stop has unlisted an instance, in every later state it is not running and no name means it, even when the name is created anew |
| `Daemon.ShutdownEndsEmpty` | src/server/daemon.rs:251-259 | When stopping all instances is finished, no instance is left |
| `Daemon.DispatchIsConsistent` | src/server/routes.rs:246-259 | A request is matched on a running instance, against a table that does not change until the match is made |

## Left out

- Recovery.CleanStaleStagingEntries: requires that the keys parsed from work directories are published names, which `Recovery.PrintedIsWellNamed` shows for every name an installer prints.
- CacheGuarantees.NothingLeftBehind: excludes cancellation during the creation of the extraction directory and failing removals, for which it is false.
- CacheCompleteness.OnlyCompletePayloads: excludes keys that contain the backup marker and interrupted removals, for which it is false.
- CacheDurability.EntrySurvivesExact: speaks of some complete entry, since any complete backup counts, not of the one that was in place.
- A rename replaces an empty directory on Unix; no rename here meets one, since every destination is found free under the publication lock.
- CacheGuarantees.WriterImpliesLock: excludes the detached creation of an extraction directory, for which it is false.
- CacheProgress.UndisturbedStaysOnCourse: excludes the deletion of a cancelled uninstall, which can take away what was just put in place.
- CacheCleanup.CancelledInstallCleansUp: says that the clean state can be reached, since a removal may also fail; what then remains is in `CacheGuarantees.NothingLeftBehind`.
- LaunchHealth.OrderDoesNotMatter: after a verdict of success, the detail of some older failure may differ between orders; nothing reports it.
- A crash during the sweep is part of the protocol but not of `Recovery`.
- The protocol's sweep restores some directory it saw and takes for a backup; the choice by name is part of `Recovery`.
- In the protocol a process is one run; a crash of a process with several runs is several crash steps.
- A crash ends a run's tasks and locks at once. When the daemon returns while a registration is installing, the runtime drops locks before its blocking extractor has stopped, so that a writer can outlive its lock for a moment.
- A sweep in the protocol is not cancelled; the startup code waits for it.
- Concurrent code is modelled on values, step by step, so aliasing of the shared objects inside one step is not represented.
- Mode bits are not part of the payload digest, and of special files only the length is.
- Tar extraction: only declared sizes are visible to the extractor there.
- The effect of an extracted entry on the file system, path and link checks: reduced to whether they pass.
- Selection of the cache entries an uninstall visits, and the removal of empty parent directories.
- Downloading, checksum parsing, registry, distribution choice, toolchains, npm and uv: process and network plumbing.
- HTTP, server-sent events, WebSocket and Unix-socket transport, classification of requests by their headers, forced closing after the stop grace period.
- Liveness and fairness: an upgrade whose client vanishes can keep its reservation, and nobody is promised a lock.
- Wrap-around of 64-bit launch, attempt and reservation counters.
- The daemon's `list` operation, which takes one lock at a time, and the validation of names, routes and hosts.
- The temporary file an install-log truncation writes, and the lock around the log.
- Timestamps and wording of errors.
- Command-line parsing and rendering.
