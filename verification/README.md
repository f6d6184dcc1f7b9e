# xcloud sync protocol, verified

A Dafny 4.11 model of xcloud's synchronisation protocol: the server's versioned file store, the client engine
that pulls from it and pushes to it, and the content-addressed chunks that carry file content between them.
`dafny verify dfyconfig.toml` checks everything.

## What is modelled

*The server* (`StoreSpec.dfy`, `Store.dfy`). `StoreSpec` gives, for every locked method of the store, a function
from tables to tables; the class `StoreObject.Store` carries the same methods out on mutable fields, with the
loops the code has, and every method is proved to compute its function and to keep the store's invariant. Two
history variables are added that the code does not keep: the event log that is never trimmed, and the set of
versions made by restoring. The invariant (`StoreInvariant.dfy`) says that every file's history is linear, that an
entry's current version is the last of its history, that replaying the log gives the live files, that the kept
events are the newest part of the log, and that the chunks of every file version join to content of its digest
and size.

*The client* (`ClientEngine.dfy`, `Client.dfy`, `LocalFiles.dfy`). The local files are a map from canonical
relative paths to nodes, with the outcomes of `os.Stat`, `os.MkdirAll`, `os.Rename`, `os.Remove` and an atomic
replace written out, errors included. `ClientEngine` gives `applyVersion`, the pull loop and the cleanup of deleted
directories as functions; the classes `State` and `Engine` in `ClientObject` carry them out in place, together
with the scan, both loops of `pushLocal`, and `syncOnce`.

*Chunks* (`FileChunks.dfy`). SHA-256 is an uninterpreted function from byte strings to 64 hexadecimal digits. Where
a result depends on digests being distinct, the alternative is stated: two different byte strings with one digest.

*The protocol* (`SyncProtocol.dfy`). One server and any number of clients as a transition system. Sending a request,
checking it outside the lock, handling it under the lock, receiving an answer, fetching events and applying one
are separate steps and interleave freely; requests and answers may be lost, delayed or repeated. `Next` is total,
so a run is any list of steps. `SyncSafety` keeps an invariant over all of them, `SyncTheorems` states what follows
for runs from an empty server, and `Client.dfy` shows that whatever `syncOnce` does, however it ends, is such a run.

## How the results hang together

| question | answered in |
|---|---|
| what every locked method keeps | `StoreInvariant`, `StoreCommit`, `StoreTrash`, `ChunkRefs` |
| what no method takes back | `StoreGrowth`, lifted to runs in `Redelivery` |
| requests delivered more than once | `Redelivery`, `AtLeastOnce` |
| no lost update | `NoLostUpdate` |
| what a client's records are worth | `SyncSafety`, `SyncTheorems` |
| the event window and the log | `EventWindow` |
| the trash | `StoreTrash`, `TrashWindow` |
| upload and download | `FileChunks` |
| what a pull destroys, and what it keeps where | `UnsyncedContent` |
| cleanup of deleted directories | `DirectoryCleanup` |
| a client that only pulls converges, interrupted or not | `PassiveReplica`, for a condition on the log alone `OrderlyReplica` |
| a client that pulls and pushes converges, others at work, interrupted or not | `ActiveReplica`, over `RecordsInStep`, `InterleavedPush` and `PushEffects` |
| what keeps a push from it | `PushObstacles` |
| the engine is a run of the protocol | `EngineRuns`, `ClientObject` |
| what a push stores, and when a sync changes nothing | `PushStores`, `QuietSync` |

Eight facts of the code shape the statements. A tombstoned parent, or one that is a file, is not revived by
`ensureParentDirsLocked`: a conflict-named directory is created, on each delivery of the request
(`AtLeastOnce.ParentNotRevived`), so a repeated commit leaves the store alone exactly when all ancestors of its path
are live directories. A client passes over its own events, so it never learns of directories the server made for it;
`ActiveReplica.Unhampered` says what must not be in their place. `pushLocal` looks for vanished files after its
uploads but compares with the scan made before them, so a conflict copy that an upload was just moved to is not found,
and is deleted on the server by the same push (`PushStores.LiveAfterPush`); its version and its bytes on the client
remain. A record keeps its file id when the server prunes the tombstone, and an upload that names it is refused from
then on, so that the push does not get through (`PushObstacles.RefusedForGood`, `PushObstacles.PushBlocked`). A
refused file id leaves an entry without a version, so "live" means having a version that is not a tombstone.
`os.Remove` also takes a regular file, and the client's conflict name is not checked for being free;
`UnsyncedContent.BytesLand` says exactly which unsynced bytes fall to either. A directory that was replaced by a file
while directories inside it were recorded as deleted makes every later cleanup fail, although nothing was in the way
of any event (`OrderlyReplica.FileOverDeletedDirs`); the files are then right all the same. The event window is
trimmed over all accounts together, and a cursor that fell behind it is answered by a suffix without notice: the
answer is complete if and only if no wanted event was trimmed.

## Model

| member | source | states |
|---|---|---|
| Paths.CleanRelCharacterized | internal/fileutil/fileutil.go:126-145 | a path is accepted if and only if each segment is safe once backslashes read as slashes, and that reading is the answer |
| Paths.CleanIdentity | internal/fileutil/fileutil.go:134-141 | `filepath.Clean` changes nothing in a path whose segments are safe |
| Paths.CleanRelFixpoint | internal/fileutil/fileutil.go:126-145 | the paths the server stores are exactly the fixed points of `CleanRel` |
| Paths.CleanRelIdempotent | internal/fileutil/fileutil.go:126-145 | cleaning an accepted path again gives the same path |
| Paths.DirOfClean | internal/server/store.go:1450-1453 | `filepath.Dir` of a stored path drops its last segment and is "." exactly at the top |
| Paths.AncestorsClean | internal/server/store.go:1449-1461 | every implicit parent of a stored path is a storable path strictly above it |
| Paths.AncestorStep | internal/server/store.go:1454-1461 | the loop that grows `current` segment by segment visits the ancestors in order, outermost first |
| ConflictNames.CandidateInjective | internal/server/store.go:1911-1926 | different counters give different conflict names |
| ConflictNames.Pigeonhole | internal/server/store.go:1921-1935 | if the first n candidates are taken, at least n names are in use |
| ConflictNames.FirstFree | internal/server/store.go:1921-1935 | the search ends within one more try than names in use, at the least free candidate |
| ConflictNames.ConflictPathIsSibling | internal/server/store.go:1911-1926 | a conflict copy gets a clean path in the same directory |
| ConflictNames.LocalConflictNameIsSibling | internal/client/sync.go:1124-1134 | so does the client's own conflict copy |
| Text.JoinKeyInjective | internal/server/store.go:1951-1961 | keys joined with NUL are distinct for distinct parts when account and space hold no NUL |
| StoreObject.Store.PutChunk | internal/server/store.go:1234-1249 | stores bytes under their own digest only, never replaces a chunk, keeps the invariant |
| StoreObject.Store.GrantAccountChunk | internal/server/store.go:1261-1269 | grants exactly stored chunks and keeps the invariant |
| StoreObject.Store.CheckChunks | internal/server/store.go:1251-1259 | computes the list of unavailable hashes; see `FileChunks.CheckChunksExact` |
| StoreObject.Store.VerifyManifest | internal/server/store.go:1802-1858 | decides as the specification does, chunk by chunk, and grants the empty file's digest only |
| StoreObject.Store.AppendEvent | internal/server/store.go:1860-1879 | appends to the log and trims the window to the newest 10000 events |
| StoreObject.Store.EventsAfter | internal/server/store.go:1296-1306 | the window's events of the account and space past the cursor, in order |
| StoreObject.Store.NewID | internal/fileutil/fileutil.go:18-26 | the next id of the counter; under the invariant no file and no version goes by it |
| StoreObject.Store.NextConflictPath | internal/server/store.go:1911-1935 | the loop ends at the least free candidate |
| StoreObject.Store.CommitEntry | internal/server/store.go:1369-1447 | the in-place update equals the specification: refused, unchanged, diverted or appended |
| StoreObject.Store.EnsureParentDirs | internal/server/store.go:1449-1480 | each ancestor that is not a live directory is committed, in order |
| StoreObject.Store.PrepareCommit | internal/server/store.go:1308-1346 | the checks before the lock; a passed request is ready, which the next member needs |
| StoreObject.Store.FinishCommit | internal/server/store.go:1348-1367 | the locked half, from any state in which the request is still ready, keeps the invariant |
| StoreObject.Store.Commit | internal/server/store.go:1308-1367 | both halves together compute `Commit` and keep the invariant |
| StoreObject.Store.Delete | internal/server/store.go:1482-1587 | computes `Delete`, all error, conflict and repeat cases included, and keeps the invariant |
| StoreObject.Store.PruneTrash | internal/server/store.go:1881-1894 | removes exactly the expired tombstones, says whether any went, keeps the invariant |
| StoreObject.Store.ListTrash | internal/server/store.go:1589-1620 | prunes, then lists distinct unexpired file tombstones newest first, nothing newer being left out |
| StoreObject.Store.FindSource | internal/server/store.go:1656-1675 | the backward loop finds the newest file version, or the fallback |
| StoreObject.Store.RestoreTrash | internal/server/store.go:1622-1711 | computes `Restore` with its error cases and keeps the invariant |
| StoreInvariant.InstallInv | internal/server/store.go:1415-1438 | appending a version that follows its entry's current one keeps the whole invariant |
| StoreInvariant.InstallLinear | internal/server/store.go:1415-1438 | each event brings a version of its own, and a tombstone follows the last event of its path or comes to a path without a version |
| StoreCommit.CheckCommitSound | internal/server/store.go:1308-1347 | what passes the checks has a clean path, available chunks joining to the stated digest and size, or is an empty directory manifest |
| StoreCommit.ReadyStable | internal/server/store.go:1340-1349 | a request found ready stays ready whatever happens before it takes the lock |
| StoreCommit.CommitLockedInv | internal/server/store.go:1348-1367 | the locked half of a commit keeps the whole invariant |
| StoreTrash.DeleteInv | internal/server/store.go:1482-1587 | a deletion keeps the whole invariant |
| StoreTrash.PruneInv | internal/server/store.go:1881-1894 | pruning keeps the whole invariant, log replay included |
| StoreTrash.RestoreInv | internal/server/store.go:1622-1711 | restoring keeps the whole invariant: the restored content is still available and joins |
| StoreTrash.FallbackUnreached | internal/server/store.go:1664-1668 | in every state that satisfies the invariant the fallback source is never used |
| StoreTrash.NewestFileIs | internal/server/store.go:1656-1663 | the backward search returns the last file version, or none exists |
| NoLostUpdate.CommitLosesNothing | internal/server/store.go:1348-1480 | a commit with all its parents changes an existing version only at its own path and only if the base matches; all other entries with a version stay, in every account and space |
| NoLostUpdate.CommitExistingResult | internal/server/store.go:1369-1447 | which of the four outcomes happens, and for a diverted upload: a path no entry used, beside the original |
| NoLostUpdate.CommitFromRecord | internal/server/store.go:1369-1447 | a commit that names a stored version is refused, answered with the live directory, appended right after that version, or diverted with the history untouched; the entry decides which |
| NoLostUpdate.CommitWithoutId | internal/server/store.go:1369-1447 | a first upload, which names no file: the only version of a new entry, or, where another client made one meanwhile, put beside it with entry and history untouched, appended to the version it is based on, or answered with the live directory; the entry decides which |
| NoLostUpdate.EnsureParentsFresh | internal/server/store.go:1449-1480 | implicit parents appear under ids and paths nobody had |
| ChunkRefs.CommitLockedConserves | internal/server/store.go:1430-1436 | commits keep: counted references plus uses in restored versions equal all uses over all versions |
| ChunkRefs.DeleteConserves | internal/server/store.go:1529-1575 | deletions keep it, a tombstone's chunk columns not counting |
| ChunkRefs.RestoreConserves | internal/server/store.go:1676-1701 | restores keep it without touching the counters |
| EventWindow.WindowAnswers | internal/server/store.go:1296-1306 | an answer is a suffix of what the whole log would give, and all of it if and only if no wanted event was trimmed |
| EventWindow.WindowRefinesLog | internal/server/store.go:1860-1879 | a cursor at or past the window's start is answered as if nothing were trimmed |
| StoreInvariant.ReplayIsLast | internal/server/store.go:1860-1879 | replaying a log lets the last event of each path win |
| EventWindow.LogTellsFiles | internal/server/store.go:1369-1480 | an entry's version is its path's last event; a path without a version ends in a tombstone or has no event |
| TrashWindow.BeforeTombstone | internal/server/store.go:1542-1568 | a file's tombstone follows the file's last version and repeats its digest, size and chunks |
| TrashWindow.RestoreDecided | internal/server/store.go:1622-1711 | a deleted file in an active space is restored exactly before its retention ends, with its id, digest, size and chunks |
| TrashWindow.RestorableUntilExpiry | internal/server/store.go:1589-1711 | the same after any run in which no commit, deletion or restore addresses the entry, through any number of prunes |
| SyncRecords.TrimmedIsFilter | internal/server/store.go:1765-1777 | trimming keeps the account's newest records up to the limit and all others, in order |
| SyncRecords.AddKeepsBound | internal/server/store.go:1713-1747 | adding and trimming keeps every account within 5000 records |
| SyncRecords.RecordList.Trim | internal/server/store.go:1765-1777 | the backward loop that deletes in place computes that filter |
| SyncRecords.RecordList.Add | internal/server/store.go:1739-1742 | append, then trim |
| FileChunks.JoinBlocks | internal/fileutil/fileutil.go:33-104 | the blocks of a file join to the file, for every content and block size |
| FileChunks.Reader.ReadFull | internal/fileutil/fileutil.go:46-52 | fills the buffer with the next bytes and says full, short or at the end |
| FileChunks.HashFile | internal/fileutil/fileutil.go:33-70 | one pass over a reused buffer gives the whole file's digest, size and chunk list |
| FileChunks.UploadMissing | internal/client/sync.go:746-763 | the chunk loop with its callback sends exactly the missing blocks |
| FileChunks.CheckChunksExact | internal/server/store.go:1251-1279 | a hash is reported if and only if it was asked for and the account cannot use it |
| FileChunks.UploadSuffices | internal/client/sync.go:733-763 | asking which chunks are missing, then sending those, each in a request of its own, makes every block available, whatever happens between any two steps, putting and granting of one chunk included |
| FileChunks.LoopDelivers | internal/client/sync.go:746-763 | the chunk loop delivers every block that was reported missing |
| FileChunks.AcceptedAndJoined | internal/server/store.go:1802-1858 | then the manifest is accepted and its chunks join to the original bytes, or a collision is at hand |
| FileChunks.DownloadCannotFail | internal/client/sync.go:962-1000 | each chunk of a stored file version is served with its size and digest, and the check after the rename passes |
| FileChunks.RoundTrip | internal/client/sync.go:733-1000 | upload, commit and a download at any later time, with anything between any two requests, return the original bytes, or exhibit a collision |
| SyncSafety.NextOk | internal/client/sync.go:613-960 | every step of server or client keeps the protocol's invariant |
| SyncSafety.RunOk | internal/client/sync.go:603-960 | so does every list of steps |
| SyncTheorems.RecordsNameVersions | internal/client/sync.go:613-687 | in every run each client record names a version stored under its file id at the record's path |
| SyncTheorems.RecordedPathsAreClean | internal/client/sync.go:862-868 | in every run the paths of a client's records are canonical |
| SyncTheorems.CommitsFromRecords | internal/client/sync.go:705-809 | a commit made from a record, handled at any later time, ends in one of the four ways of `CommitFromRecord` |
| SyncTheorems.FirstUploads | internal/client/sync.go:705-809 | a first upload, handled at any later time in any run, ends in one of the ways of `CommitWithoutId` |
| SyncTheorems.LinearHistories | internal/server/store.go:1397-1430 | in every run: versions chain by base, version ids are unique, the current version is the last, no two entries share a file id |
| SyncTheorems.LogReplays | internal/server/store.go:1860-1879 | in every run: the log replays to the live files, and the version of an entry, tombstones included, is that of the last event at its path |
| SyncTheorems.WindowIsNewest | internal/server/store.go:1860-1879 | in every run: the numbers of the log run from 1 to the last sequence number; the window is its newest part, at most 10000 events |
| SyncTheorems.CursorsAnswered | internal/server/store.go:1296-1306 | in every run: every cursor is answered by a suffix of what the log would give, and by all of it from the window on |
| SyncTheorems.ContentAndReferences | internal/server/store.go:1340-1349 | in every run: every file version's chunks join to its digest and size and may be read by its account; references are conserved |
| SyncTheorems.StoredPathsAreClean | internal/client/sync.go:862-868 | in every run: every path of entries, versions and events is a fixed point of `CleanRel`, so no client refuses it |
| SyncTheorems.DeliveredAgain | internal/client/api.go:201-249 | a request answered once and delivered again after any run gets the first answer, a commit also when anything happened between its check and its lock; a deletion changes nothing, a commit changes nothing exactly when its ancestors are live directories |
| Redelivery.RunGrows | internal/server/store.go:1369-1447 | no run takes back a history, an event, an answer, a chunk or a grant |
| Redelivery.EnsureParentsIdle | internal/server/store.go:1449-1480 | the parents are left alone if and only if all of them are live directories |
| Redelivery.RedeliveredSplit | internal/server/store.go:1340-1366 | a commit checked in one state and locked in a later one, delivered again still later while its space is active: the checks pass with the same plan, the answer is the first, and the ancestors alone decide whether anything changes |
| Redelivery.RedeliveredCommit | internal/server/store.go:1350-1358 | the same for a commit first handled in one go |
| Redelivery.RedeliveredDelete | internal/server/store.go:1499-1502 | a repeated deletion returns the first answer and changes nothing |
| AtLeastOnce.CommitHandledAgain | internal/client/api.go:201-249 | in every run, a commit whose check and lock were separate steps, handled again at any later time: the same answer, the server changed exactly if an ancestor is no live directory; while the space is active its repeated check passes and changes nothing |
| AtLeastOnce.ParentNotRevived | internal/server/store.go:1449-1480 | an ancestor that has a version and is no live directory stays as it is, whatever commit comes below it, and each delivery makes another entry instead |
| AtLeastOnce.DeleteHandledAgain | internal/client/api.go:201-249 | a deletion handled again at any later time, while the space is active, sends the same answer and changes nothing at all |
| LocalFiles.RenameWellFormed | internal/client/sync.go:897-905 | after a rename everything above a file is still a directory |
| LocalFiles.WriteWellFormed | internal/fileutil/fileutil.go:168-199 | so after an atomic write, failed or not |
| LocalFiles.MovedAt | internal/client/sync.go:897-905 | what a rename leaves at every single path, subtree included |
| ClientEngine.ApplyRecords | internal/client/sync.go:862-960 | applying a version records it exactly when it succeeds: the protocol's step `Apply` |
| ClientEngine.RecordedStays | internal/client/sync.go:872-875 | an event whose version is recorded changes neither records nor files, and succeeds |
| ClientEngine.SortedAscending | internal/client/sync.go:816-818 | sorting gives the same events in ascending order |
| ClientEngine.SortedStay | internal/client/sync.go:816-818 | events that arrive in order stay in that order |
| ClientEngine.PullEndsClean | internal/client/sync.go:811-840 | a pull puts nothing at a path that is not canonical |
| ClientEngine.ApplyWellFormed | internal/client/sync.go:862-1000 | whatever is applied, the local files stay a tree |
| DirectoryCleanup.AnyOrderCleans | internal/client/sync.go:842-860 | longest path first, ties in any order: the pass succeeds if and only if no directory is cut off by a file above it, and the result does not depend on the order |
| DirectoryCleanup.LeftStanding | internal/client/sync.go:842-860 | a tombstoned directory is left exactly when something below it is left that is not one |
| DirectoryCleanup.CleanedIsFixpoint | internal/client/sync.go:842-860 | a second pass changes nothing |
| UnsyncedContent.UnsyncedDiverges | internal/client/sync.go:1063-1093 | bytes that are not the recorded version's are seen as divergence when equal size and time mean equal content |
| UnsyncedContent.BytesLand | internal/client/sync.go:862-960 | for every event, applied with success or not: unsynced bytes are found at their landing place if and only if neither a directory's tombstone comes to their path nor a file with other bytes is moved onto it as a conflict copy |
| UnsyncedContent.LandApart | internal/client/sync.go:889-905 | two files land at one place only if one is at the event's path and the other at its conflict name |
| UnsyncedContent.AsideLands | internal/client/sync.go:889-905 | where each byte string is after a move aside, successful or failed |
| UnsyncedContent.ApplyKeeps | internal/client/sync.go:862-960 | an event that does not destroy them leaves unsynced bytes, still unsynced, at their landing place: their path or, with what stood at the event's path, the conflict name |
| UnsyncedContent.ApplyHonest | internal/client/sync.go:962-1000 | after it, equal size and time still mean equal content |
| UnsyncedContent.PullKeeps | internal/client/sync.go:811-836 | over any list of events, cut short or not: the unsynced bytes of a file whose landing places no event destroys are found, still unsynced, where they landed last |
| UnsyncedContent.PullNeverDestroys | internal/client/sync.go:811-860 | the same for a whole pull, cleanup included, which takes them if and only if a deleted directory is recorded at that very place |
| UnsyncedContent.DirTombstoneTakesFile | internal/client/sync.go:1102-1110 | a regular file at the path of a directory's tombstone is removed |
| UnsyncedContent.TakenNameIsOverwritten | internal/client/sync.go:1124-1134 | an unsynced file under the conflict name is overwritten |
| PassiveReplica.ApplyMirrors | internal/client/sync.go:862-960 | for a client that only pulls: the next event is applied and records and files then mirror one more event, if and only if the version is applicable, which the client could check beforehand |
| PassiveReplica.InapplicableFails | internal/client/sync.go:862-960 | a version that is not applicable fails, or takes away something recorded |
| PassiveReplica.FailedFetch | internal/client/sync.go:936-990 | a file whose download fails leaves the client mirroring the events before it, whatever was moved aside or made for it |
| PassiveReplica.EventsMirror | internal/client/sync.go:811-836 | wherever the event loop is cut short, by cancellation or a failed download: the client mirrors exactly the events behind it, the cursor stands there, and the loop succeeds if and only if these are all |
| PassiveReplica.CleanupMirrors | internal/client/sync.go:842-860 | the cleanup takes no file and no live directory, and succeeds if and only if no deleted directory lies below a file |
| PassiveReplica.CutOffOnLog | internal/client/sync.go:842-860 | whether a cleanup can succeed is told by the log: no path whose last event is a directory's tombstone lies below a live file |
| PassiveReplica.FetchedContent | internal/client/sync.go:962-1000 | the chunks of a logged file give its content, whenever they are fetched |
| PassiveReplica.OnePull | internal/client/sync.go:811-860 | one pull inside the window whose versions are applicable, cut short or not, is caught up with the events it got behind it; it succeeds exactly if these are all the events, as without interruption they are, and no deleted directory lies below a live file of the log |
| PassiveReplica.CaughtUpHoldsLiveFiles | internal/server/store.go:1296-1306 | a client that applied all events of a space holds exactly the contents of its live files, their times and the live directories |
| PassiveReplica.PassiveClientConverges | internal/client/sync.go:811-960 | whatever the batches, and wherever pulls were cancelled or downloads failed, from an empty root, if each version is applicable when its turn comes: after a pull that got through, the local files are exactly the server's live files with their times, and every live directory is there; an uninterrupted pull reports an error exactly if the log has a deleted directory below a live file |
| OrderlyReplica.LogTellsApplicable | internal/client/sync.go:862-960 | what applicable means for every version, tombstones included, read off the log: no live file above, no live file in a directory's place, no live directory in a file's place, nothing live below a file or a tombstone without a predecessor, and a free conflict name should a directory be left there |
| OrderlyReplica.UnobstructedOnLog | internal/client/sync.go:811-960 | so whether anything is in the way of a pull is a matter of the log and the conflict names alone |
| OrderlyReplica.ClearClientConverges | internal/client/sync.go:811-960 | convergence under that condition on the log and the conflict names |
| OrderlyReplica.OrderlyClientConverges | internal/client/sync.go:811-960 | over a log in which nothing comes below a live file, no directory onto one, and no file where a directory ever was: no uninterrupted pull fails, and after a pull that succeeded the client has converged, whatever was cut short before |
| OrderlyReplica.FileBecomesDirectory | internal/client/sync.go:862-960 | a deleted file whose place a directory takes makes such a log |
| OrderlyReplica.FileOverDeletedDirs | internal/client/sync.go:842-860 | two nested directories, both deleted, and a file in place of the outer one: nothing is in the way of any of these events, and the log then makes every cleanup fail |
| PassiveReplica.DirOverFileFails | internal/client/sync.go:920-926 | a directory version over a regular file fails and changes nothing |
| PassiveReplica.FileOverDirFails | internal/client/sync.go:936-956 | a file version over a recorded directory fails |
| EngineRuns.ServersOfRun | internal/server/store.go:1308-1447 | the states of one server along any run satisfy the invariant and only grow, as `PassiveReplica.PassiveClientConverges` asks of the servers it pulls from |
| EngineRuns.CommittedIs | internal/client/sync.go:705-790 | sending a commit and having it handled are the protocol's steps |
| EngineRuns.PullEndLeads | internal/client/sync.go:811-860 | every way a pull may end is a run of the protocol |
| EngineRuns.BlocksLead | internal/client/sync.go:746-763 | sending missing chunks is a run of the protocol |
| EngineRuns.CommitDelivers | internal/server/store.go:1369-1447 | a new upload is answered with the file's digest and size, at its path or at the conflict path named in the answer |
| EngineRuns.UploadedIsSynced | internal/client/sync.go:733-809 | after `uploadFile` the bytes stand where a record says, and that record says what they are |
| PushStores.UploadSparesOthers | internal/client/sync.go:783-801 | an upload keeps the bytes of every other local file, except of one that stands at the conflict path the uploaded file is moved to, which stay if and only if they are the same |
| PushStores.LiveAfterPush | internal/client/sync.go:613-686 | one answered upload and the rest of its push: the file is live where it went, at its path or beside it, if and only if the scan has that path, with the same content should it still be to be visited; what went beside unscanned is a tombstone on the server when the push is done, while its bytes stand under that name locally |
| PushStores.PushStoresUnsynced | internal/client/sync.go:613-686 | after a successful push every file that was unsynced is stored for the account and space, digest and size, live at its path or as a version beside it; what is beside it unscanned is a tombstone |
| PushStores.StoredBytes | internal/server/store.go:1802-1858 | what the server has at an account's path under a file's digest and size may be read by that account and joins to the file's bytes, or a collision is at hand |
| PushStores.SyncOnceStores | internal/client/sync.go:603-611 | no loss over a successful `syncOnce`: unsynced bytes its first pull spares are stored for the account and space by its push, live at the path where they landed or as a version beside it |
| QuietSync.SyncOnceIsQuiet | internal/client/sync.go:603-611 | a successful `syncOnce` nobody interferes with changes neither server nor client if and only if there was nothing left to do: no events, nothing to clean up, every file and directory recorded as it is, every recorded one there |
| PushEffects.ParentsMade | internal/server/store.go:1449-1480 | making the missing parents leaves every path alone but those of new directories: in place where nothing was, beside under a conflict name where a file or tombstone is |
| PushEffects.CommitAnswered | internal/server/store.go:1348-1447 | an upload that is not diverted is the last event of its path and carries what was sent; apart from its parents nothing else changes |
| PushEffects.DeleteBuries | internal/server/store.go:1482-1587 | a deletion based on the current version leaves its tombstone as the last event there, and all other paths alone |
| PushEffects.CommitOwn | internal/server/store.go:1369-1480 | all events of a commit, implicit parents included, are the requester's own |
| PushEffects.CommitPutBeside | internal/server/store.go:1369-1447 | an answered upload that is not based on the version at its path is a new entry's version under a conflict name nobody used; entry and history of its path stay |
| RecordsInStep.PullTuned | internal/client/sync.go:811-836 | wherever a pull stops: for each path the newest event is still to come, or the record is in step with it; a pull that gets through leaves nothing of the others' to come |
| RecordsInStep.ServerAnswers | internal/server/store.go:1296-1306 | what a pull is answered has, in order and once each, all of the others' events that are still to come, if none of them left the window |
| RecordsInStep.OthersAttuned | internal/client/sync.go:811-836 | whatever others commit keeps that, and no record can name their events before they are passed |
| RecordsInStep.UploadAttuned | internal/client/sync.go:705-809 | so does every answered upload, at its path or beside it |
| RecordsInStep.RefusedAttuned | internal/server/store.go:1369-1480 | so does a refused one, which may have made directories |
| RecordsInStep.RemovalAttuned | internal/client/sync.go:650-685 | so does every answered deletion, conflicts included |
| RecordsInStep.OtherIdRefused | internal/server/store.go:1374-1385 | an upload that names a file which is not at its path is refused |
| InterleavedPush.PushAttuned | internal/client/sync.go:613-687 | a push with others at work between any two of its requests, stopped anywhere, by cancellation, a chunk that did not get through or a refusal, keeps the records attuned as long as its answers are recorded |
| InterleavedPush.PushedIsAmid | internal/client/sync.go:613-687 | an undisturbed push that gets through is one of these |
| InterleavedPush.RunByOthers | internal/server/store.go:1308-1711 | whatever other clients, restores and prunes do in any run of the protocol is such work of others |
| ActiveReplica.UploadKeepsItsPath | internal/server/store.go:1369-1447 | whatever a record says, an answered upload of a file goes to its own path if and only if there is no version or the record names the current one |
| ActiveReplica.InStepKeepsItsPath | internal/client/sync.go:733-809 | from a record in step, which is not of a pruned file, that is if and only if no directory is there that the client was never told of |
| ActiveReplica.PushInStep | internal/client/sync.go:613-687 | a push that nothing hampers, in whatever order it visits, leaves every record in step, matching what was scanned, and the local files alone |
| ActiveReplica.OneSync | internal/client/sync.go:603-611 | one `syncOnce`, others at work all the time, its pulls and its push cut short anywhere: the records are attuned again; if it got through undisturbed, with nothing to hamper it, the client's files outside the state directory are exactly the server's live files, or a collision is at hand |
| ActiveReplica.ActiveClientConverges | internal/client/sync.go:603-960 | the same for any number of syncs of a new client, whatever the user edits between them and the others commit at any time: each sync that gets through undisturbed and unhampered brings the two together |
| PushObstacles.HamperedByDirectory | internal/client/sync.go:613-686 | without the first half of `ActiveReplica.Unhampered` it fails: a file where the server has a directory the client was never told of is put beside it and its copy deleted on the server, and the client is left with a file the server does not have |
| PushObstacles.AnsweredUnlessOther | internal/server/store.go:1369-1385 | a commit that passes the checks is answered if and only if it names no file or the one at its path |
| PushObstacles.UploadGetsThrough | internal/client/sync.go:733-779 | the upload of a file whose chunks are there, in an active space, is answered if and only if its record names no file or the one at its path, or a collision is at hand |
| PushObstacles.IdNeverReturns | internal/server/store.go:1369-1480 | in every run: a file id that is not at a path any more never returns there |
| PushObstacles.RefusedForGood | internal/client/sync.go:766-779 | in every run: once a client's record of a path names a file that is not there, as after its tombstone was pruned, every later upload from it is refused |
| PushObstacles.PushBlocked | internal/client/sync.go:613-648 | a push that would have to send such a file or directory does not get through |
| ClientObject.State.Get | internal/client/state.go:56-61 | the record at a path or the zero record, and whether there is one |
| ClientObject.State.Set | internal/client/state.go:63-68 | replaces one record and leaves the others |
| ClientObject.State.Delete | internal/client/state.go:70-75 | removes one record and leaves the others |
| ClientObject.State.Snapshot | internal/client/state.go:77-85 | a copy of all records, made entry by entry |
| ClientObject.State.SetLastEventSeq | internal/client/state.go:136-143 | the cursor becomes the larger of the two |
| ClientObject.Engine.MoveAside | internal/client/sync.go:889-905 | parent made, then renamed; a missing source is no failure |
| ClientObject.Engine.DownloadVersion | internal/client/sync.go:962-1000 | replaces the file before the whole-file check |
| ClientObject.Engine.ApplyVersion | internal/client/sync.go:862-960 | the in-place updates of files and records compute `ApplyVersion`, branch by branch |
| ClientObject.Engine.LongestFirstOrder | internal/client/sync.go:850-852 | each directory once, in descending path length, ties in any order |
| ClientObject.Engine.CleanupDeletedDirs | internal/client/sync.go:842-860 | removes the tombstoned directories longest first, stopping at the first error |
| ClientObject.Engine.PullRemote | internal/client/sync.go:811-840 | the event loop and the cleanup end in one of the ways `PullEnds` allows |
| ClientObject.Engine.UploadFile | internal/client/sync.go:733-809 | success means: missing chunks sent, manifest committed, file moved after its conflict copy, answer recorded; always a run of the protocol |
| ClientObject.Engine.UploadDir | internal/client/sync.go:705-731 | success means: committed and recorded; always a run of the protocol |
| ClientObject.Engine.RemoveRemote | internal/client/sync.go:650-685 | success means: a deletion was answered, and an ok answer recorded, no other record touched; always a run of the protocol |
| ClientObject.Engine.VisitEntry | internal/client/sync.go:618-648 | success means: skipped when the record agrees, its time touched, or uploaded; always a run of the protocol |
| ClientObject.Engine.ScanLocal | internal/client/sync.go:1002-1061 | the digest, size, chunks and time of every file outside the state directory, and every directory with the time found for it |
| ClientObject.Engine.PushChanged | internal/client/sync.go:618-648 | success means: every scanned path was visited exactly once, in some order |
| ClientObject.Engine.PushGone | internal/client/sync.go:650-686 | success means: for every path recorded as there and not found a deletion was answered, once, in some order |
| ClientObject.Engine.PushLocal | internal/client/sync.go:613-687 | success means: every scanned path visited once in some order, then a deletion answered for every recorded path not found; always a run of the protocol |
| ClientObject.Engine.SyncOnce | internal/client/sync.go:603-611 | pull, push, pull, each step what its specification says; however it ends, a run of the protocol |

## Left out

- HTTP handlers, sessions, tokens, accounts, devices, folders, settings, legacy migration and the web pages are not modelled: map updates beside the protocol.
- Creating a space and changing its `active` flag are one step that sets the flag; the error for an unknown space is not modelled.
- SQLite mirroring, JSON persistence and `fsync`: every save is taken to succeed, and each locked method is one step.
- The transport's timing and Retry-After (section 10.2.3 of RFC 9110): a request is lost, answered, or delivered again at any time.
- Random ids (section 5.4 of RFC 9562) are the numbers of a counter, `Issued(n)`; any other id a caller may send is `Foreign`, so only injectivity is used. Operation ids of an engine come from a source that never repeats one.
- Table keys joined with NUL are modelled as triples; `Text.JoinKeyInjective` says when that is right.
- Time stamps in conflict names are a parameter made of digits and dashes, and one request reads the clock once, where the code reads it again for each implicit parent directory.
- Integers are unbounded; sizes, times and sequence numbers do not overflow. Text is a sequence of characters, without an encoding.
- `strings.TrimSpace` is applied to root paths, the space id and actor name of a restore; the state and file id columns of a request are taken as already trimmed.
- Symbolic links, permissions, Windows paths, names holding a backslash, and the temporary file of an atomic write are not modelled; the engine's `.xcloud` directory is not kept in the tree, though a scan skips that name as the code does. The tree does not keep the modification times of directories, which applying a version sets: a scan may find any.
- The user does not edit files while one engine operation runs; the lemmas about single events hold between any two edits.
- fsnotify, debounce, tickers, the supervisor and `switchRoot` are not modelled; the engine starts at `syncOnce`.
- Sync records live in a class of their own, `SyncRecords.RecordList`, with their payload as one text; the client's reports of them are not modelled, and neither is `ListSyncRecords`.
- `ClientEngine.PullEvents` leaves out what each download costs: what fetching the chunks came to is a parameter of the event, and `PassiveReplica.IsPull` ties it to the server.
- ClientObject.Engine.SyncOnce: runs against a store nobody else touches meanwhile; interleavings with other clients are the subject of `SyncProtocol`.
- UnsyncedContent.PullNeverDestroys: assumes that equal size and time mean equal content, without which the code does not look at a file, and that what is moved aside takes no recorded name; which bytes an event destroys is no assumption but an exact condition, `UnsyncedContent.Destroys`.
- PassiveReplica.PassiveClientConverges: for events that are applicable when their turn comes; `PassiveReplica.ApplyMirrors` shows that no other event can be applied with the client still mirroring the log, and `OrderlyReplica.UnobstructedOnLog` that the log and the conflict names tell.
- OrderlyReplica.OrderlyClientConverges: a file at a path that once was a directory's is left to the theorem above, since whether the old directory is still there depends on the batches and on the clock.
- ActiveReplica.ActiveClientConverges: answers to commits and deletions that are lost, or cannot be recorded because a file does not follow its conflict copy, are left out: the client then passes over its own event, and its next upload of that path goes beside it, as `ActiveReplica.UploadKeepsItsPath` says. So are tombstones pruned before the client passed them, that is ten days behind; names that `ActiveReplica.Unhampered` excludes; and a root path with blanks around it, whose events a client does not know for its own.
- PushStores.PushStoresUnsynced: asks that the paths of records are canonical, as `SyncTheorems.RecordedPathsAreClean` shows for every run.
