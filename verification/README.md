# A model of rust-backup and its transfer protocol

This project models, in Dafny, the parts of rust-backup (and of the `bore` code vendored into it)
whose correctness does not show in one function, and proves what they promise.

**The chunked transfer.** A sender turns a file tree into a manifest (`Scan`, `ScanMeaning`), which
the receiver checks (`Manifest`); the paths in it are encoded by `PathCodec`. Each file is cut into
chunks of 1 MiB (`Chunking`). The receiver derives a resume plan from its state file, the sender a
queue of tasks from that plan, and both settle on a number of streams (`ResumePlan`); plan and queue
are a tiling of each file (`Tiling`). What a worker does under the receiver's locks is in
`ResumeState`. `TransferMachine` puts it together: any number of sender and receiver workers that
pop, send, check, write at offsets, mark, flush under two locks and persist, while the page cache
writes back when it likes, either side may fail at any step, a crash loses what is not durable, and a
commit or the removal of a declined transfer may stop half-way; the next run resumes from any state
file that was ever written. `TransferSafety` proves the invariant of all schedules and crash durability,
`TransferVerdict` what the final verification says, exactly, and end-to-end integrity,
`TransferProgress` that fault-free runs cannot get stuck and how they end, `TransferLimits` exactly
for which transfers acceptance can be trusted, `TransferRecovery` what an unfinished commit costs and
that the transfer recovers from it. `Commit` moves the staged content into place by renames that may
fail, once or in any number of commits that stop.

**The upgrade from relayed to direct.** `UpgradeMachine` is the consumer's `listen` loop with its
one-shot slots, the background attempts and the server that answers in order, from any leftover of
the startup negotiation. `Registry` is the server's side: registration, UDP offers, brokering and
deregistration, interleaved in any order.

**The data plane.** `Wire` is the framing over a byte stream with arbitrary short reads and writes,
`ChunkStream` the events on top of it, also on streams cut anywhere, `Session` the two parties of a
backup, both as a machine with failures and as the methods that run. `Delimited` is the
NUL-delimited control codec with receives that are abandoned half-way.

**Arithmetic cores.** `Stun` is the responder and the attribute walk of RFC 5389 (sections 6, 15 and
15.2), `CarrierPool` the round robin over carriers, `Cidr` the overlap of IPv4 networks.

## What the proofs found

The theorems hold for the code as it is; where a promise fails, the exact condition is proved.

- A commit that stops half-way leaves the state file behind with every bit set, and the next run finds
  zeros where it has moved a file away. No crash is needed: with `Fail`, it is enough that the second of
  two destinations exists. The next run then has nothing to receive and ends in a hash mismatch exactly
  when a moved file is not all zeros (`TransferRecovery.UnfinishedCommitFailsResume`). So, unless a file
  is oversized, the final re-hash can fail for every transfer with such a file and for no other
  (`TransferRecovery.NeverMismatchesIffAllZero`). What is accepted is the source all the same
  (`TransferVerdict.TransferIntegrity`), and each failing run heals one file
  (`TransferRecovery.TransferRecovers`). Declining a resumed transfer can do the same: the failure to
  remove its stage is ignored, and staged files may be gone while the state file is not.
- With `Overwrite`, commits that stop keep the old content in a backup named after the text of the child's
  name, in which bytes that are not UTF-8 are replaced. Two children that share this name can lose old
  content over two stopped commits; without such a pair it always survives
  (`Commit.AlwaysSafeIffOwnBackups`). Declining the next run removes the backups with the stage, also one
  that is the only copy (`Commit.DeclineIsSafeIff`).
- A file of more than 2^32 - 1 chunks gets a truncated chunk count. On a stage that may hold anything,
  such a transfer has a run that is accepted with wrong content; without such a file there is none
  (`TransferLimits.IntactIffAllFit`). A new stage is zero-filled: there it takes an oversized file with
  something other than zeros past its last chunk (`TransferLimits.IntactFromNewStageIff`).
- The manifest check looks up earlier ancestors only, so an inconsistent manifest can be accepted
  (`Manifest.LaterAncestorSlipsThrough`): exactly one that lists a non-directory after an entry below it
  (`Manifest.ConsistentIff`). The sender's own manifests are consistent.
- Several sources with the same file name make a manifest that the receiver refuses; the sender does
  not notice (`Scan.SourcesAreAcceptedIffDistinct`).
- A single file called `state.json`, `state.tmp` or, when overwriting, `overwrite-backup` shares its
  staged path with a file of the receiver's own and does not arrive; under the first two names an empty
  file does, as nothing is persisted after it is staged (`Commit.DeliveredIff`).
- Without `--overwrite`, a destination that is a symbolic link leading nowhere is replaced
  (`Commit.OnlyDanglingIsReplaced`).
- An offer made while a predecessor of the same id is half removed is lost to the broker once the removal
  is over (`Registry.DisorderlyOfferIsLost`). A provider is reachable, and stays so, exactly when it has
  made an offer at another moment; what other providers do does not matter
  (`Registry.ReachableIffOrderlyOffered`).
- A source that dies at a frame boundary looks like one that has ended: the destination can report
  success with a part of the data (`Session.TruncatedRestoreSucceeds`), for every approved plan with any
  events (`Session.SuccessIsCompleteIff`). With `Done` it has all of it.
- Different encoded strings can name the same path (`PathCodec.DecodingIsNotInjective`), so only decoded
  paths may be compared, which is what the manifest check does, or re-encoded ones
  (`PathCodec.SamePathIffSameReencoding`).

## Assumptions

- `write_all` has put its bytes into the volatile file when it returns. Syncs and renames of the state
  file succeed as long as a run lasts; a run may stop before or after any of them, a commit after any of
  its renames, and the removal of a declined transfer anywhere.
- A file that has been synced is still in its directory after a power failure, unless a commit has moved
  it away or it was removed.
- BLAKE3 is injective: a digest is modelled as its content. The source files do not change.
- A resumed run finds some version of the state file that was written; none is required to be the
  last one.
- Frame bodies are encoded by any pair of functions of which the second undoes the first; bodies of
  control messages hold no NUL.
- `register_provider_udp_offer` is one step: nothing comes between its two lookups and its insertion.
- Timers, backoff, the outcome of probing and dialling, and when things fail are arbitrary.

## Model

| member | source | states |
|---|---|---|
| Chunking.CoversIffFits | vendored-from-bore/transfer.rs:3435-3446 | the chunks of a file cover every byte of it exactly when the chunk count fits 32 bits |
| Chunking.ChunksDisjoint | vendored-from-bore/transfer.rs:3443-3446 | no byte belongs to two chunks |
| Chunking.ChunkInsideFile | vendored-from-bore/transfer.rs:3443-3446 | a chunk reaches no further than its file |
| Chunking.InChunkIsQuotient | vendored-from-bore/transfer.rs:3443-3446 | a byte of the file is in chunk `i` exactly when its position divided by 1 MiB is `i` |
| Chunking.LastChunkMissed | vendored-from-bore/transfer.rs:3435-3441 | an oversized file has a byte, its last, that no chunk holds |
| Chunking.ChunksSumToSize | vendored-from-bore/transfer.rs:3435-3446 | the chunk lengths add up to the size exactly when the chunk count fits 32 bits |
| ResumePlan.BuildResumePlan | vendored-from-bore/transfer.rs:1951-1982 | the loops build the plan of the state file, or stop at the first entry that is unknown or has the wrong number of bits |
| ResumePlan.BuildChunkTasks | vendored-from-bore/transfer.rs:2717-2755 | the loops queue the tasks of the manifest less the plan |
| ResumePlan.QueuedExactlyOnce | vendored-from-bore/transfer.rs:2717-2755 | a chunk that the plan lacks is queued exactly once, any other never |
| ResumePlan.QueuedTasksAreSound | vendored-from-bore/transfer.rs:1422-1448 | every queued task belongs to a regular entry and passes the receiver's geometry check |
| ResumePlan.QueueIsComplementOfFlags | vendored-from-bore/transfer.rs:1951-1982 | through plan and queue together: a chunk is queued once if its bit is unset, never if it is set |
| ResumePlan.FileConservation | vendored-from-bore/transfer.rs:1969-1975 | for one file, resumed and queued bytes add up to its chunks |
| ResumePlan.ResumeConservesBytes | vendored-from-bore/transfer.rs:1951-1982 | resumed bytes and queued bytes are together the bytes of the transfer, exactly when every chunk count fits 32 bits |
| ResumePlan.PlanAgreesWithFlags | vendored-from-bore/transfer.rs:1951-1982 | what the sender reads off the plan about each file is its bitmap |
| ResumePlan.PendingIsNumberOfTasks | vendored-from-bore/transfer.rs:1397-1417 | the chunks the receiver waits for are as many as the sender queues |
| ResumePlan.Rendezvous | vendored-from-bore/transfer.rs:1397-1417 | the sender opens as many data streams as the receiver waits for |
| ResumePlan.ResumedPlanIsWellFormed | vendored-from-bore/transfer.rs:1951-1982 | a plan from a state file meets the condition of the rendezvous |
| ResumePlan.AllCompletePlanNeedsNoWorkers | vendored-from-bore/transfer.rs:1940-1949 | the plan of the re-acknowledgement leaves no task and no stream, on both sides |
| Tiling.ByteIsTiled | vendored-from-bore/transfer.rs:2717-2755 | a byte is in a resumed chunk or in a queued task, never in both or in two of either, exactly when some chunk of its file holds it |
| Tiling.FileIsTiledIffFits | vendored-from-bore/transfer.rs:1951-1982 | resumed chunks and queued tasks cover a file exactly when its chunk count fits 32 bits |
| ResumeState.CountExtremes | vendored-from-bore/transfer.rs:2889-2898 | as many set bits as bits means every bit is set |
| ResumeState.VerifyMeaning | vendored-from-bore/transfer.rs:1984-2035 | verification accepts exactly when every file is fully flagged and is fresh or hashes right; otherwise it names the first file that is not, no earlier one having a verdict |
| ResumeState.ResumeShared.IsChunkComplete | vendored-from-bore/transfer.rs:2811-2824 | the bit, or an unknown entry |
| ResumeState.ResumeShared.TakeSnapshot | vendored-from-bore/transfer.rs:2861-2873 | takes the flags and the dirty set together, or nothing when nothing is pending |
| ResumeState.ResumeShared.SyncStagedFiles | vendored-from-bore/transfer.rs:3448-3469 | exactly the files it is given become durable |
| ResumeState.ResumeShared.FlushPending | vendored-from-bore/transfer.rs:2861-2882 | what it persists was synced before; nothing is pending afterwards |
| ResumeState.ResumeShared.MarkChunkComplete | vendored-from-bore/transfer.rs:2826-2859 | sets the bit, the dirty path and the fresh count together, flushes on the threshold, refuses what has no bit |
| ResumeState.ResumeShared.AllChunksFresh | vendored-from-bore/transfer.rs:2884-2887 | the fresh count has reached the chunk count |
| ResumeState.ResumeShared.AllChunksComplete | vendored-from-bore/transfer.rs:2889-2898 | every bit of the file is set |
| ResumeState.ResumeShared.ResetFile | vendored-from-bore/transfer.rs:2900-2917 | clears the bits of one file and persists that |
| ResumeState.ResumeShared.VerifySummary | vendored-from-bore/transfer.rs:1984-2035 | the verdict of the specification, with the reset it entails |
| TransferSafety.StepKeepsInv | vendored-from-bore/transfer.rs:1450-1555 | every step of workers, page cache, failures, resets, commits, declined transfers and restarts keeps the invariant |
| TransferSafety.PopKeepsInv | vendored-from-bore/transfer.rs:923-930 | taking a task off the shared queue keeps every chunk on its way at most once |
| TransferSafety.ReceiveKeepsInv | vendored-from-bore/transfer.rs:1467-1538 | what a receiver worker does with a frame keeps the invariant |
| TransferSafety.HonestChunkIsWritten | vendored-from-bore/transfer.rs:1469-1495 | a chunk of the sender passes all checks and cannot already be complete, so it is written |
| TransferSafety.WriteKeepsInv | vendored-from-bore/transfer.rs:1495-1512 | writing a piece at its offset spoils nothing |
| TransferSafety.FullyWrittenIsRight | vendored-from-bore/transfer.rs:1511-1515 | a chunk written in full is right in the volatile file |
| TransferSafety.MarkKeepsInv | vendored-from-bore/transfer.rs:2826-2859 | marking keeps the invariant: bit, dirty path and fresh count change together |
| TransferSafety.SnapshotKeepsInv | vendored-from-bore/transfer.rs:2861-2873 | what the dirty set protected the snapshot protects |
| TransferSafety.SyncKeepsInv | vendored-from-bore/transfer.rs:2878 | a sync makes the flagged chunks of its file durable |
| TransferSafety.PersistKeepsInv | vendored-from-bore/transfer.rs:2879 | a snapshot is persisted only when all it flags is durable |
| TransferSafety.WritebackKeepsInv | vendored-from-bore/transfer.rs:2861-2882 | the page cache may write back anything at any time |
| TransferSafety.StartKeepsInv | vendored-from-bore/transfer.rs:1700-1806 | a run that starts from durable flags starts in the invariant |
| TransferSafety.RestartKeepsInv | vendored-from-bore/transfer.rs:1700-1730 | resuming after a crash, an unfinished commit or an unfinished removal, from any version ever persisted, keeps the invariant |
| TransferSafety.CommitKeepsInv | vendored-from-bore/transfer.rs:2083-2181 | however far a commit gets, and whichever of its renames are on disk, a byte of a flagged chunk is right or, in a moved file, zero |
| TransferSafety.DeclineKeepsInv | vendored-from-bore/transfer.rs:1176-1203 | so it is when the stage of a declined transfer is removed, however far that gets |
| TransferSafety.ScheduleKeepsInv | vendored-from-bore/transfer.rs:1450-1555 | so does every schedule |
| TransferSafety.CrashDurability | vendored-from-bore/transfer.rs:2826-2882 | in every reachable state, a chunk flagged in any state file ever persisted has its bytes durable; in a file that has left the stage, by a commit or a removal, a byte may be zero instead |
| TransferVerdict.FreshMeansCheckedNow | vendored-from-bore/transfer.rs:2018-2022 | skipping the re-hash is sound: the fresh count reaches the chunk count exactly when all chunks were checked in this run |
| TransferVerdict.FileIsSourceExact | vendored-from-bore/transfer.rs:2023-2031 | a fully flagged file is its source except for bytes zeroed since it left the stage and bytes that no chunk holds |
| TransferVerdict.VerdictExact | vendored-from-bore/transfer.rs:1984-2035 | for every transfer: accepted exactly when all chunks are flagged and no resumed file is spoiled; a mismatch is reported in a spoiled file |
| TransferVerdict.ResetExact | vendored-from-bore/transfer.rs:2024-2031 | when all workers are done and all chunks flagged, the run ends with a reset exactly if some resumed file is spoiled; what it resets has left the stage before or is oversized |
| TransferVerdict.TransferIntegrity | vendored-from-bore/transfer.rs:1984-2035 | in every reachable state of a run that is on, through crashes, unfinished commits and removals, and resumed runs, verification accepts exactly when nothing is missing and no resumed byte was zeroed, and then every staged file is its source byte for byte; a mismatch is in a file that has left the stage |
| TransferProgress.StepProgress | vendored-from-bore/transfer.rs:1450-1555 | every fault-free step but a write-back lowers the measure and keeps the run healthy |
| TransferProgress.NoDeadlock | vendored-from-bore/transfer.rs:905-995 | as long as a worker is unfinished, some step is possible |
| TransferProgress.FinishedMeansComplete | vendored-from-bore/transfer.rs:1348-1395 | when all workers are done, everything is flagged and recorded; verification accepts exactly when no resumed byte is zeroed, and every file is durable if none is on disk |
| TransferProgress.RunStartIsHealthy | vendored-from-bore/transfer.rs:1101-1115 | every run, fresh or resumed after any history with crashes, resets, commits and removals, starts healthy |
| TransferProgress.RunLeavesByte | vendored-from-bore/transfer.rs:1495-1512 | no fault-free run touches a byte outside all chunks or in a chunk that was flagged when it began |
| TransferProgress.ZeroedFromTheStart | vendored-from-bore/transfer.rs:1495-1512 | a fault-free run neither zeroes nor heals a resumed byte |
| TransferProgress.FaultFreeRunsComplete | vendored-from-bore/transfer.rs:1348-1395 | fault-free runs end within the measure and cannot get stuck before; the end is accepted exactly when no resumed byte was zeroed at the start, and is a mismatch otherwise |
| TransferLimits.OversizedFileSlipsThrough | vendored-from-bore/transfer.rs:3435-3441 | with a file of more than 2^32 - 1 chunks there is a stage from which a fault-free run ends accepted and wrong |
| TransferLimits.WrongTailSlipsThrough | vendored-from-bore/transfer.rs:1511-1512 | so does every first run on a stage that differs from the source in a byte that no chunk holds |
| TransferLimits.IntactIffAllFit | vendored-from-bore/transfer.rs:3435-3441 | acceptance means the staged files are the source, for all schedules and whatever the stage held before, exactly when every chunk count fits 32 bits |
| TransferLimits.IntactFromNewStageIff | vendored-from-bore/transfer.rs:1850-1866 | on a new, zero-filled stage: exactly when the bytes past the chunks, which only oversized files have, are zero in the source |
| TransferRecovery.UnfinishedCommitFailsResume | vendored-from-bore/transfer.rs:1683-1730 | a run that resumes an unfinished commit with a complete state file has nothing to receive, and mismatches exactly when a file was moved that is not all zeros |
| TransferRecovery.CommitDurability | vendored-from-bore/transfer.rs:2119-2121 | a durable chunk stays durable through a commit exactly when the rename of its file is not on disk or the chunk is all zeros |
| TransferRecovery.NeverMismatchesIffAllZero | vendored-from-bore/transfer.rs:2024-2031 | over all schedules, the final re-hash of a transfer never fails exactly when all its files are zeros |
| TransferRecovery.ResetHeals | vendored-from-bore/transfer.rs:2900-2917 | a reset heals the file it is about and zeroes no other |
| TransferRecovery.TransferRecovers | vendored-from-bore/transfer.rs:1700-1730 | from the start of any run some fault-free runs complete the transfer, at most one more than files are zeroed |
| PathCodec.SplitJoin | vendored-from-bore/transfer.rs:3147-3155 | splitting undoes joining, for parts without the separator |
| PathCodec.HexRoundTrip | vendored-from-bore/transfer.rs:3174-3182 | hexadecimal decoding undoes encoding |
| PathCodec.HexHasNoSlash | vendored-from-bore/transfer.rs:3174-3182 | hexadecimal never holds the separator |
| PathCodec.ComponentRoundTrip | vendored-from-bore/transfer.rs:3174-3221 | any component, UTF-8 or not, decodes to itself; its encoding is not empty and holds no separator |
| PathCodec.EncodeRelativePath | vendored-from-bore/transfer.rs:3136-3148 | the loop encodes all components or stops at one that is not normal |
| PathCodec.PushParts | vendored-from-bore/transfer.rs:3154-3161 | the loop pushes all parts or stops at an empty one |
| PathCodec.DecodeRelativePath | vendored-from-bore/transfer.rs:3150-3162 | the empty string is the empty path; otherwise the parts are pushed |
| PathCodec.JoinedComponents | vendored-from-bore/transfer.rs:3164-3172 | joining normal names makes a path of just these components |
| PathCodec.DecodedNames | vendored-from-bore/transfer.rs:3150-3162 | encoded names decode to the path they make up |
| PathCodec.PathRoundTrip | vendored-from-bore/transfer.rs:3136-3162 | exactly the paths of normal components can be encoded, and they decode to the same path |
| PathCodec.EncodingIsInjective | vendored-from-bore/transfer.rs:3136-3148 | two paths have the same encoding exactly when they are the same |
| PathCodec.SamePathIffSameReencoding | vendored-from-bore/transfer.rs:3150-3162 | two accepted strings name one path exactly when they have the same re-encoding, canonical ones exactly when they are equal; a string that is not canonical has a different one that is |
| PathCodec.CanonicalIff | vendored-from-bore/transfer.rs:3136-3148 | canonical are exactly the strings that encoding can give |
| PathCodec.DecodingIsNotInjective | vendored-from-bore/transfer.rs:3204-3221 | every name has several strings: digits of either case, either tag, a component that decodes to nothing; only the encoding is canonical |
| Manifest.FindsNonDirectory | vendored-from-bore/transfer.rs:1890-1901 | the loop over parents finds a non-directory among the ancestors if there is one |
| Manifest.CheckMetadata | vendored-from-bore/transfer.rs:1902-1924 | the checks of a regular entry, for both kinds of source |
| Manifest.ValidateManifest | vendored-from-bore/transfer.rs:1868-1927 | the loop answers the first thing that is wrong, if any |
| Manifest.AcceptedIffAcceptable | vendored-from-bore/transfer.rs:1868-1927 | accepted exactly when the root is empty, ids and paths are distinct, paths are normal, none is below an earlier non-directory, and metadata and chunk counts are right |
| Manifest.ConsistentIff | vendored-from-bore/transfer.rs:1890-1901 | an accepted manifest is consistent exactly when the ancestors it lists after an entry below them are directories too |
| Manifest.ParentsFirstIsConsistent | vendored-from-bore/transfer.rs:1890-1901 | in particular when parents are listed first |
| Manifest.LaterAncestorSlipsThrough | vendored-from-bore/transfer.rs:1890-1901 | an accepted manifest may list `a/b` before a regular file `a`: only earlier ancestors are looked up |
| Scan.Scanner.Visit | vendored-from-bore/transfer.rs:2572-2714 | one node: its id, its entry, its bytes, or its error |
| Scan.Scanner.ScanEntry | vendored-from-bore/transfer.rs:2563-2715 | the recursion over a directory, pushing into the vectors, does what the specification says |
| Scan.Scanner.ScanAll | vendored-from-bore/transfer.rs:2411-2452 | the same for several sources under a root of the manifest's own |
| Scan.RelPathEncodes | vendored-from-bore/transfer.rs:2576 | encoding a path of normal names cannot fail and gives the entry's `rel_path` |
| Scan.NodeKeepsGood | vendored-from-bore/transfer.rs:2563-2715 | scanning a node adds entries at or below its path, with increasing ids and parents first, and keeps the total exact |
| Scan.FirstKeepsGood | vendored-from-bore/transfer.rs:2603-2618 | so does scanning any number of children |
| Scan.ScannedManifestIsAccepted | vendored-from-bore/transfer.rs:2529-2562 | the manifest of any well-formed tree is accepted by the receiver, and its total is the sum of its sizes |
| Scan.RootComesFirst | vendored-from-bore/transfer.rs:2529-2562 | the first entry is the root, with the empty path |
| Scan.SameNameTwice | vendored-from-bore/transfer.rs:2432-2448 | two listed sources of one name get two entries of one path |
| Scan.SourcesAreAcceptedIffDistinct | vendored-from-bore/transfer.rs:2411-2452 | a manifest of several sources is accepted exactly when the listed ones have different file names |
| ScanMeaning.NodeIsSound | vendored-from-bore/transfer.rs:2563-2715 | every entry describes a node of the tree at its path |
| ScanMeaning.NodeIsListed | vendored-from-bore/transfer.rs:2563-2715 | every node that is not excluded has its entry |
| ScanMeaning.ManifestDescribesTree | vendored-from-bore/transfer.rs:2563-2715 | the manifest lists exactly the nodes that are not excluded, with path, kind, size, hash and chunk count |
| Commit.Disk.BackUp | vendored-from-bore/transfer.rs:2106-2108 | the old content moves to the backup, or nothing changes |
| Commit.Disk.Restore | vendored-from-bore/transfer.rs:2110 | the backup moves back, or nothing changes |
| Commit.Disk.Place | vendored-from-bore/transfer.rs:2109-2121 | the staged child moves to its destination, or nothing changes |
| Commit.Disk.RemoveBackup | vendored-from-bore/transfer.rs:3503-3517 | the backup goes; on failure only the backup is affected |
| Commit.Disk.CommitChild | vendored-from-bore/transfer.rs:2094-2122 | wherever it stops, old content is in place or backed up, or new content is in place; nothing staged is lost; no other child changes |
| Commit.Disk.CommitChildren | vendored-from-bore/transfer.rs:2083-2129 | the same for every name over any number of children, and for names that are not staged nothing changes; without `Overwrite` nothing that exists is replaced |
| Commit.BetweenIsSafe | vendored-from-bore/transfer.rs:2083-2129 | what holds between two children keeps every name safe and every staged item somewhere |
| Commit.AlwaysSafeIffOwnBackups | vendored-from-bore/transfer.rs:2104-2117 | whatever was at the destinations, old or new content survives any number of stopped commits, in place or in the backup, exactly when no two staged children share a backup name |
| Commit.SharedBackupLosesContent | vendored-from-bore/transfer.rs:2104-2108 | two staged children with one backup name: two stopped commits leave the old content of the first in neither place |
| Commit.RootCommitsAreSafe | vendored-from-bore/transfer.rs:2131-2157 | a single root: old or new content survives any number of stopped commits |
| Commit.DeclineIsSafeIff | vendored-from-bore/transfer.rs:1182-1203 | removing the stage of a declined transfer after stopped commits is safe exactly when no backup that goes is the only copy |
| Commit.Disk.CommitRoot | vendored-from-bore/transfer.rs:2131-2181 | a single root, for every pattern of failures: a root not called like the backup leaves old or new content, nothing staged is lost, other names are untouched, and without `Overwrite` nothing that exists is replaced |
| Commit.Disk.PersistState | vendored-from-bore/transfer.rs:2920-2928 | the state file is replaced; wherever that fails, the old one is in place or the new one complete beside it |
| Commit.RootIsSafe | vendored-from-bore/transfer.rs:2131-2181 | the same of the function that specifies the commit |
| Commit.PersistKeepsRoot | vendored-from-bore/transfer.rs:2920-2928 | persisting the state leaves the staged root alone exactly when it is not called like one of the state files |
| Commit.DeliveredIff | vendored-from-bore/transfer.rs:1763-1764 | a single file arrives exactly when it is empty or its name is not that of a state file, and its destination is free, or is overwritten and not called like the backup |
| Commit.WrongContentReportedAsSuccess | vendored-from-bore/transfer.rs:2131-2181 | a file called like the state arrives as the state unless it is empty, one called like the backup leaves the old content, and the commit reports success |
| Commit.OnlyDanglingIsReplaced | vendored-from-bore/transfer.rs:2131-2167 | without `Overwrite`, whatever fails, what is replaced is exactly a link that leads nowhere, when the rename succeeds |
| UpgradeMachine.ListenLoop.Tick | vendored-from-bore/secret.rs:998-1040 | the timer asks for a hint only when neither direct, nor busy, nor already waiting |
| UpgradeMachine.ListenLoop.Receive | vendored-from-bore/secret.rs:1043-1103 | a frame on the control channel: a hint that is waited for spawns an attempt, a broker reply goes to whoever holds the slot |
| UpgradeMachine.ListenLoop.TakeCandidates | vendored-from-bore/secret.rs:1106-1148 | candidates are offered, or their absence ends the attempt |
| UpgradeMachine.ListenLoop.TakeDone | vendored-from-bore/secret.rs:1150-1173 | the end of an attempt clears all slots |
| UpgradeMachine.AnswerKeepsPipe | vendored-from-bore/secret.rs:477-536 | answering requests in order changes neither what arrives nor in what order |
| UpgradeMachine.HintKeepsInv | vendored-from-bore/secret.rs:1059-1081 | no leftover reply can be overtaken by a hint, so a new attempt starts with none on its way |
| UpgradeMachine.AnswerKeepsInv | vendored-from-bore/secret.rs:1053-1092 | a reply is for the attempt that holds the slot, or a leftover that nobody takes |
| UpgradeMachine.StepKeepsInv | vendored-from-bore/secret.rs:998-1173 | every step of loop, tasks and server keeps the invariant |
| UpgradeMachine.ScheduleKeepsInv | vendored-from-bore/secret.rs:998-1173 | so does every schedule |
| UpgradeMachine.AtMostOneAttempt | vendored-from-bore/secret.rs:998-1173 | at most one attempt runs, the slots agree on it, and none does while waiting for a hint or direct |
| UpgradeMachine.RepliesReachTheirAttempt | vendored-from-bore/secret.rs:1053-1092 | a broker reply is only delivered to the attempt whose offer it answers, whatever the startup left behind |
| UpgradeMachine.NobodyWaitsInVain | vendored-from-bore/secret.rs:1619-1668 | the hint or the reply that is waited for is on its way |
| Registry.Server.TryRegister | vendored-from-bore/secret.rs:203-220 | registered exactly when the id is free; otherwise nothing changes |
| Registry.Server.RegisterProviderUdpOffer | vendored-from-bore/secret.rs:109-148 | an existing entry lends its nonce and channel; otherwise a new channel is made |
| Registry.Server.BrokerUdp | vendored-from-bore/secret.rs:477-536 | a punch exactly when the provider can be reached, and then the offer is queued first, with the same nonce |
| Registry.Server.Deregister | vendored-from-bore/secret.rs:168-180 | both entries of the id go |
| Registry.RegistryStep | vendored-from-bore/secret.rs:203-220 | every step keeps the registry exact |
| Registry.NoncesStep | vendored-from-bore/secret.rs:109-148 | every step keeps one nonce per channel |
| Registry.AnswersStep | vendored-from-bore/secret.rs:477-536 | every step keeps each punch backed by a queued offer |
| Registry.ScheduleKeepsInv | vendored-from-bore/secret.rs:62-180 | so does every schedule |
| Registry.RegistryAndBroker | vendored-from-bore/secret.rs:477-536 | an id maps to its one listed provider; every punch has its offer queued to a provider of that id under that nonce; every offer gets one reply |
| Registry.RejectedDuplicateIsInert | vendored-from-bore/secret.rs:203-220 | for the rest of any run, a rejected duplicate takes no step, and all others could take theirs without it, to the same end |
| Registry.ReachStep | vendored-from-bore/secret.rs:109-180 | every step, orderly or not, keeps the entry that a live provider owns pointing at its open receiver |
| Registry.EstablishedStays | vendored-from-bore/secret.rs:109-180 | what an orderly offer gives a provider it keeps until it leaves, whatever others do |
| Registry.NonceStays | vendored-from-bore/secret.rs:109-148 | from its first orderly offer until it leaves, the nonce and the channel of a provider are the same across all its offers, whatever others do |
| Registry.ReachableIffOrderlyOffered | vendored-from-bore/secret.rs:109-180 | in every schedule, a live provider can be reached, with no predecessor left to take that away, exactly when it has itself made an offer while no other provider of its id was half removed |
| Registry.TurnedAwayIffNotOrderlyOffered | vendored-from-bore/secret.rs:477-536 | while nobody else of the id is half removed, a consumer that asks for a live provider is turned away exactly when the provider has made no such offer |
| Registry.DisorderlyOfferIsLost | vendored-from-bore/secret.rs:168-180 | an offer in the middle of another provider's removal is lost, in any state |
| Registry.RemovalLeavesAGap | vendored-from-bore/secret.rs:168-180 | such a moment exists |
| Wire.LengthRoundTrip | crates/rb-core/src/wire.rs:80-102 | the length prefix is read as it was written |
| Wire.ReceiveFromPrefix | crates/rb-core/src/wire.rs:91-114 | from any prefix of a frame: the frame, a clean end within the length prefix, or an error |
| Wire.ByteStream.Read | crates/rb-core/src/wire.rs:145-155 | any number of bytes that are there, none only at the end |
| Wire.ByteStream.WriteAllIdle | crates/rb-core/src/wire.rs:118-136 | all bytes, or a failure after some of them |
| Wire.ByteStream.ReadExactIdle | crates/rb-core/src/wire.rs:139-158 | fills the buffer with the next bytes, or reports the end or a stall |
| Wire.ByteStream.SendFrame | crates/rb-core/src/wire.rs:67-88 | the frame as specified, nothing when it is too long, a prefix on failure |
| Wire.ByteStream.RecvFrame | crates/rb-core/src/wire.rs:91-114 | what the bytes say, however the reads are split |
| ChunkStream.NextFromPrefix | crates/rb-core/src/channel.rs:172-214 | from any prefix of an event: the event, a clean end, or an error; never another event |
| ChunkStream.StreamRoundTrip | crates/rb-core/src/channel.rs:102-215 | decoding a finished stream gives its events and leaves the bytes after it |
| ChunkStream.TruncatedStream | crates/rb-core/src/channel.rs:172-214 | wherever the stream is cut, the first events come out, then a clean end within four bytes of a boundary and an error elsewhere |
| ChunkStream.ChunkSink.SendChunk | crates/rb-core/src/channel.rs:104-124 | header and payload, or a prefix of them; the counter counts payload sent |
| ChunkStream.ChunkSink.FinishItem | crates/rb-core/src/channel.rs:126-137 | the item's end, or a prefix of it |
| ChunkStream.ChunkSink.Finish | crates/rb-core/src/channel.rs:139-141 | the end frame |
| ChunkStream.ChunkSource.NextChunk | crates/rb-core/src/channel.rs:172-214 | the event the bytes say; the counter counts payload received |
| Session.StepKeepsInv | crates/rb-core/src/session.rs:30-145 | every step of source, destination and failures keeps the queues equal to what is written and unread |
| Session.DestReadsEventKeepsInv | crates/rb-core/src/session.rs:126-129 | the destination reads the next event of the source, or the end |
| Session.SourceDiesKeepsInv | crates/rb-core/src/session.rs:51-66 | a source that dies leaves a prefix of what it would have written |
| Session.ScheduleKeepsInv | crates/rb-core/src/session.rs:30-145 | so does every schedule |
| Session.NoPayloadWithoutAcceptance | crates/rb-core/src/session.rs:108-128 | payload flows only after acceptance; a rejection leads to neither `stream_out` nor `stream_in` |
| Session.SessionIsFaithful | crates/rb-core/src/session.rs:51-76 | the destination has a prefix of the events; with `Done` it has all and the totals agree; a successful source has equal fingerprints; success without `Done` means the source failed |
| Session.TruncatedRestoreSucceeds | crates/rb-core/src/session.rs:126-144 | a source that dies at a frame boundary leaves a destination that reports success with only the first events |
| Session.SuccessIsCompleteIff | crates/rb-core/src/session.rs:126-144 | over all schedules, a destination that succeeds has all events exactly when the plan is not approved or there are no events |
| Session.OfferPlan | crates/rb-core/src/channel.rs:220-261 | nothing but the plan is written before an accepting reply |
| Session.StreamOut | crates/rb-core/src/channel.rs:104-141 | all events and the end frame, in order, counted; a failure leaves a prefix |
| Session.RunSource | crates/rb-core/src/session.rs:30-77 | success means everything was written, in order, with the right total, and the fingerprint is unchanged; a failure leaves a prefix |
| Session.StreamIn | crates/rb-core/src/channel.rs:172-214 | hands out the decoding of the stream, up to the end |
| Session.RunDestination | crates/rb-core/src/session.rs:85-145 | a rejection hands out nothing; success hands out the decoding of all the bytes after the plan |
| Session.DestinationOfPrefix | crates/rb-core/src/session.rs:85-145 | from any prefix of what a source writes the destination decodes the first events, from all of it all events |
| Session.RunBoth | crates/rb-core/src/session.rs:30-145 | both sides, the output of one fed to the other: the destination is handed the first events whatever fails, and all of them when both succeed |
| Delimited.SameFirst | crates/rb-transport/src/proto.rs:65-67 | what comes before the first NUL is determined |
| Delimited.ReceivedAreFirst | crates/rb-transport/src/proto.rs:63-76 | if received, buffered and unread bytes make up what was sent, the messages received are the first sent; all of them when nothing complete is left |
| Delimited.Stream.SendAll | crates/rb-transport/src/proto.rs:54-60 | the bodies, each with its delimiter; a failure leaves the first ones and perhaps the start of one more |
| Delimited.Stream.Position | crates/rb-transport/src/proto.rs:65 | the first delimiter in the buffer |
| Delimited.Stream.Receive | crates/rb-transport/src/proto.rs:63-76 | the next message, the end, or nothing lost when abandoned between reads |
| Delimited.Stream.ReceiveMany | crates/rb-transport/src/server.rs:132-152 | over any number of receives, some abandoned, the messages come out as sent, in order, each once |
| Stun.XorTwice | vendored-from-bore/holepunch.rs:1771-1784 | combining twice with the same key gives the number back |
| Stun.ValueRoundTrip | vendored-from-bore/holepunch.rs:1821-1822 | big-endian numbers are read as they were written |
| Stun.ParseXorMapped | vendored-from-bore/holepunch.rs:1765-1795 | the decoding of an address of either family, with the loop over the sixteen octets |
| Stun.FindMapped | vendored-from-bore/holepunch.rs:1748-1762 | the loop over the attributes stays in bounds, ends, and finds the first mapped address |
| Stun.ParseResponse | vendored-from-bore/holepunch.rs:1734-1763 | the checks of the header, then the first mapped address |
| Stun.WalkFindsFirst | vendored-from-bore/holepunch.rs:1748-1762 | the walk skips padded attributes of other types and stops at the first mapped address |
| Stun.ResponseOfAttributes | vendored-from-bore/holepunch.rs:1734-1763 | for any well-formed attributes, the answer is the decoding of the first mapped address |
| Stun.BindingResponse | vendored-from-bore/holepunch.rs:1799-1824 | an answer exactly to a binding request from an IPv4 address, with that address as its one attribute |
| Stun.MappedValueRoundTrip | vendored-from-bore/holepunch.rs:1765-1795 | the value decodes to the address and port it was made from |
| Stun.ClientLearnsItsAddress | vendored-from-bore/holepunch.rs:1734-1824 | parsing the response recovers every IPv4 address and port |
| Stun.SixteenOctetsRoundTrip | vendored-from-bore/holepunch.rs:1778-1792 | the same for the decoding of IPv6 addresses |
| CarrierPool.Pool.Push | vendored-from-bore/pool.rs:88-95 | adds a carrier exactly when below the cap |
| CarrierPool.Pool.Prune | vendored-from-bore/pool.rs:111 | keeps the living, in order |
| CarrierPool.Pool.Pick | vendored-from-bore/pool.rs:109-117 | a live carrier of the pool exactly when it has one, at the counter's position |
| CarrierPool.Pool.PickMany | vendored-from-bore/pool.rs:109-117 | without deaths, joins or a wrap, `k` picks are the carriers at successive positions, and each of `n` distinct carriers is among them `k / n` times, rounded down or up |
| CarrierPool.ShortWindow | vendored-from-bore/pool.rs:115 | within one round a position is picked once or not at all |
| CarrierPool.PicksAreFair | vendored-from-bore/pool.rs:109-117 | of `k` turns each of `n` positions gets `k / n`, rounded down or up |
| Cidr.MasksAreNested | vendored-from-bore/shared.rs:659-665 | a shorter prefix masks less |
| Cidr.NestedOrApart | vendored-from-bore/shared.rs:644-657 | an address of the narrower network is in the wider one exactly when they overlap |
| Cidr.OverlapMeansShared | vendored-from-bore/shared.rs:650-657 | networks overlap exactly when they share an address; overlapping is symmetric; of two that overlap the narrower lies within the wider |
| Cidr.ContainsItself | vendored-from-bore/shared.rs:638-647 | a network contains its address and its network address |

## Left out

- Sockets, TLS, QUIC, yamux, heartbeats and the length of timeouts: streams are queues of bytes or frames, and a timeout is a failure that may happen at any time.
- JSON, HMAC and the inside of BLAKE3.
- Standard input as a source, and the creation of symbolic links and devices: they add cases only. Entries keep their kind, but not link target, device numbers or mode.
- The contents of `read_dir` come in any order; sorting them is not modelled, because nothing that is proved depends on it.
- PathCodec.DecodeComponent: does not model the `w:` form of Windows; such a component is treated like any other unknown tag.
- Resuming with a state file of another protocol version or manifest: the program refuses and nothing is transferred. Of the confirmation prompt, only that a transfer may be declined.
- `resolve_final_name_local` and `rename_component`: the final name is a parameter of the commit.
- Runs in which a sync fails: the dirty set has been taken by then, so nothing is promised about them.
- Commit.Disk.CommitChildren: treats a file or directory as one value, so it does not model a recursive removal that fails half-way, except for the backup.
- CarrierPool.Pool.PickMany: does not model the wrap of the counter, after which two picks in a row may hit the same carrier when the pool's size does not divide 2^64.
- Session.SessionIsFaithful: the progress counters are unbounded; they wrap in the program after 2^64 bytes.
- Registry.Server.RegisterProviderUdpOffer: is atomic, so it does not model another task between its lookups and its insertion.
- Registry.Server.BrokerUdp: waits for no room in the provider's channel; the machine of the same module does, and separates lookup and send.
- The registration of `rb-transport`'s own server, which checks and inserts in two steps.
- `destination_satisfies_manifest`: whether the re-acknowledgement is chosen is not modelled, only that its plan needs no streams. It is never chosen while a state file exists.
- What a commit meets at the destination is in `Commit`; `TransferMachine` only has which staged files have gone, and lets them be any, where the program moves whole top-level children.
- The backend modules, the command line, YAML configuration, progress rendering, NAT reports, `Backoff`, `Prefixed`, `Endpoint::parse`, `parse_size_bytes` and `Preflight::check`.
